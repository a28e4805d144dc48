/** The salary text of the weekly job-alert mail: the decimal digits of the
    salary, with a comma placed by a regular-expression replacement at every
    non-boundary position followed by a positive multiple of three digits up
    to the end, then the currency suffix " \u0111". */
module SalaryFormat {

  const SUFFIX: string := " \U{0111}"

  predicate IsDigit(c: char) {
    '0' <= c <= '9'
  }

  predicate AllDigits(s: string) {
    forall i :: 0 <= i < |s| ==> IsDigit(s[i])
  }

  function DigitChar(d: nat): (c: char)
    requires d < 10
    ensures IsDigit(c)
  {
    "0123456789"[d]
  }

  function DigitValue(c: char): (d: nat)
    requires IsDigit(c)
    ensures d < 10
  {
    (c as int - '0' as int) as nat
  }

  /** The template string of a natural number: its decimal digits, with no
      leading zero except for 0 itself. */
  function Digits(n: nat): (s: string)
    ensures 1 <= |s| && AllDigits(s)
    ensures s[0] == '0' ==> n == 0
    decreases n
  {
    if n < 10 then [DigitChar(n)] else Digits(n / 10) + [DigitChar(n % 10)]
  }

  /** The number a string of decimal digits denotes. */
  function Value(s: string): nat
    requires AllDigits(s)
    decreases |s|
  {
    if s == [] then 0 else Value(s[..|s| - 1]) * 10 + DigitValue(s[|s| - 1])
  }

  lemma {:induction false} DigitsRoundTrip(n: nat)
    ensures Value(Digits(n)) == n
    decreases n
  {
    if n >= 10 {
      DigitsRoundTrip(n / 10);
      var s := Digits(n);
      assert s[..|s| - 1] == Digits(n / 10);
    }
  }

  /** The regular-expression replacement on a run of digits: a comma goes
      before a digit when it is not the first one (the `\B`) and the digits
      from it to the end number a positive multiple of three (the lookahead).
      `first` says whether `d` starts the string. */
  function Separate(d: string, first: bool): string
    decreases |d|
  {
    if d == [] then []
    else (if !first && |d| % 3 == 0 then [','] else []) + [d[0]] + Separate(d[1..], false)
  }

  /** The salary's decimal text with thousands separators, then the suffix. */
  function FormatSalary(salary: nat): string {
    Separate(Digits(salary), true) + SUFFIX
  }

  function RemoveCommas(s: string): string
    decreases |s|
  {
    if s == [] then [] else (if s[0] == ',' then [] else [s[0]]) + RemoveCommas(s[1..])
  }

  lemma {:induction false} RemoveCommasAppend(x: string, y: string)
    ensures RemoveCommas(x + y) == RemoveCommas(x) + RemoveCommas(y)
    decreases |x|
  {
    if x != [] {
      assert (x + y)[1..] == x[1..] + y;
      RemoveCommasAppend(x[1..], y);
    } else {
      assert x + y == y;
    }
  }

  lemma {:induction false} SeparateRemoveCommas(d: string, first: bool)
    requires AllDigits(d)
    ensures RemoveCommas(Separate(d, first)) == d
    decreases |d|
  {
    if d != [] {
      var pre: string := if !first && |d| % 3 == 0 then [','] else [];
      SeparateRemoveCommas(d[1..], false);
      RemoveCommasAppend(pre + [d[0]], Separate(d[1..], false));
      RemoveCommasAppend(pre, [d[0]]);
      assert RemoveCommas([d[0]]) == [d[0]] by {
        assert [d[0]][1..] == [];
      }
      assert RemoveCommas(pre) == [] by {
        if pre != [] { assert pre[1..] == []; }
      }
      assert d == [d[0]] + d[1..];
    }
  }

  /** Round trip: removing the suffix and then the commas gives back the
      salary's decimal digits, which denote the salary. */
  lemma {:induction false} FormatSalaryRoundTrip(salary: nat)
    ensures var f := FormatSalary(salary);
            && |f| > |SUFFIX|
            && f[|f| - |SUFFIX|..] == SUFFIX
            && RemoveCommas(f[..|f| - |SUFFIX|]) == Digits(salary)
            && Value(Digits(salary)) == salary
  {
    var body := Separate(Digits(salary), true);
    var f := FormatSalary(salary);
    assert f == body + SUFFIX;
    assert f[..|f| - |SUFFIX|] == body;
    SeparateRemoveCommas(Digits(salary), true);
    DigitsRoundTrip(salary);
    assert |body| >= 1 by {
      var d := Digits(salary);
      assert body == (if false then [','] else []) + [d[0]] + Separate(d[1..], false);
    }
  }

  /** The digit groups counted from the right: threes, and whatever is left
      (one to three digits) in front. */
  function Groups(d: string): (gs: seq<string>)
    requires |d| >= 1
    decreases |d|
  {
    if |d| <= 3 then [d] else Groups(d[..|d| - 3]) + [d[|d| - 3..]]
  }

  /** The groups written out with a comma between neighbours. */
  function Join(gs: seq<string>): string
    decreases |gs|
  {
    if |gs| == 0 then []
    else if |gs| == 1 then gs[0]
    else Join(gs[..|gs| - 1]) + [','] + gs[|gs| - 1]
  }

  function Concat(gs: seq<string>): string
    decreases |gs|
  {
    if gs == [] then [] else Concat(gs[..|gs| - 1]) + gs[|gs| - 1]
  }

  /** The leading group has one to three digits, every later group exactly
      three, and together they are the digits in order. */
  lemma {:induction false} GroupsShape(d: string)
    requires |d| >= 1
    ensures var gs := Groups(d);
            && |gs| >= 1
            && 1 <= |gs[0]| <= 3
            && (forall i :: 1 <= i < |gs| ==> |gs[i]| == 3)
            && Concat(gs) == d
    decreases |d|
  {
    if |d| > 3 {
      var a, b := d[..|d| - 3], d[|d| - 3..];
      GroupsShape(a);
      var gs := Groups(d);
      assert gs == Groups(a) + [b];
      assert gs[..|gs| - 1] == Groups(a);
      assert d == a + b;
    } else {
      assert Concat([d]) == Concat([]) + d;
    }
  }

  lemma {:induction false} SeparateShort(d: string, first: bool)
    requires |d| <= 3 && (first || |d| <= 2)
    ensures Separate(d, first) == d
    decreases |d|
  {
    if d != [] {
      SeparateShort(d[1..], false);
      assert d == [d[0]] + d[1..];
    }
  }

  lemma {:induction false} SeparateAppend(a: string, b: string, first: bool)
    requires |b| == 3 && (a == [] ==> !first)
    ensures Separate(a + b, first) == Separate(a, first) + [','] + b
    decreases |a|
  {
    if a == [] {
      assert a + b == b;
      SeparateShort(b[1..], false);
      assert b == [b[0]] + b[1..];
    } else {
      assert (a + b)[1..] == a[1..] + b;
      assert (a + b)[0] == a[0];
      SeparateAppend(a[1..], b, false);
    }
  }

  /** The regular expression produces exactly the comma-joined groups. */
  lemma {:induction false} SeparateIsJoinedGroups(d: string)
    requires |d| >= 1
    ensures Separate(d, true) == Join(Groups(d))
    decreases |d|
  {
    if |d| <= 3 {
      SeparateShort(d, true);
    } else {
      var a, b := d[..|d| - 3], d[|d| - 3..];
      assert d == a + b;
      SeparateAppend(a, b, true);
      SeparateIsJoinedGroups(a);
      var gs := Groups(a) + [b];
      assert Groups(d) == gs;
      GroupsShape(a);
      assert gs[..|gs| - 1] == Groups(a);
    }
  }

  /** The formatted salary is the salary's digit groups (leading group of one
      to three digits, then groups of three) joined by commas, then " đ". */
  lemma FormatSalaryGroups(salary: nat)
    ensures FormatSalary(salary) == Join(Groups(Digits(salary))) + SUFFIX
  {
    SeparateIsJoinedGroups(Digits(salary));
  }
}
