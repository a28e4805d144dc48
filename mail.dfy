/** The weekly job-alert run of the mail controller (`handleTestEmail`): for
    every subscriber, in the order the subscriber query returns them, the jobs
    sharing a skill with the subscriber are listed in one mail. The mailer is
    modelled as an outbox of delivered messages and a transport that accepts
    or rejects each message; cron scheduling and template rendering are not
    part of this model. */
module Mail {
  import opened Common
  import opened Entities
  import opened SalaryFormat

  const FROM: string := "\"Support Team\" <support@example.com>"
  const SUBJECT: string := "Welcome to Recruitment App! Mail automatically"
  const TEMPLATE: string := "job"

  /** One job as the template receives it. */
  datatype JobEntry = JobEntry(name: string, company: string, salary: string, skills: seq<string>)

  datatype Message = Message(
    to: string, from: string, subject: string, template: string,
    receiver: string, jobs: seq<JobEntry>)

  /** The `$in` query on a job's skills: some skill of the job is one of the
      subscriber's skills. */
  predicate SharesSkill(job: Job, skills: seq<string>) {
    exists s :: s in job.skills && s in skills
  }

  /** The jobs the query returns, in the order of the job listing. */
  function MatchingJobs(jobs: seq<Job>, skills: seq<string>): (r: seq<Job>)
    ensures |r| <= |jobs|
    ensures forall j :: j in r ==> j in jobs && SharesSkill(j, skills)
    ensures forall j :: j in jobs && SharesSkill(j, skills) ==> j in r
    decreases |jobs|
  {
    if jobs == [] then []
    else
      var rest := MatchingJobs(jobs[1..], skills);
      assert forall j :: j in jobs[1..] ==> j in jobs;
      assert forall j :: j in jobs ==> j == jobs[0] || j in jobs[1..];
      if SharesSkill(jobs[0], skills) then [jobs[0]] + rest else rest
  }

  /** The selection keeps the listing's order: matching a concatenation is
      matching each part, one after the other. */
  lemma {:induction false} MatchingJobsAppend(a: seq<Job>, b: seq<Job>, skills: seq<string>)
    ensures MatchingJobs(a + b, skills) == MatchingJobs(a, skills) + MatchingJobs(b, skills)
    decreases |a|
  {
    if a != [] {
      assert (a + b)[1..] == a[1..] + b;
      MatchingJobsAppend(a[1..], b, skills);
    } else {
      assert a + b == b;
    }
  }

  /** A subscriber with no skills, or a job with no skills, never matches. */
  lemma NoSkillsNoMatch(jobs: seq<Job>, skills: seq<string>)
    requires skills == [] || forall j :: j in jobs ==> j.skills == []
    ensures MatchingJobs(jobs, skills) == []
  {
  }

  /** The template entry of a job: its name, its company's name, its salary
      formatted with thousands separators, and its skills unchanged. */
  function Entry(job: Job): (e: JobEntry)
    ensures e.name == job.name && e.company == job.company.name && e.skills == job.skills
    ensures |e.salary| > |SUFFIX|
    ensures RemoveCommas(e.salary[..|e.salary| - |SUFFIX|]) == Digits(job.salary)
  {
    FormatSalaryRoundTrip(job.salary);
    JobEntry(job.name, job.company.name, FormatSalary(job.salary), job.skills)
  }

  function Entries(jobs: seq<Job>): (es: seq<JobEntry>)
    ensures |es| == |jobs|
    ensures forall i :: 0 <= i < |jobs| ==> es[i] == Entry(jobs[i])
  {
    seq(|jobs|, i requires 0 <= i < |jobs| => Entry(jobs[i]))
  }

  /** The mail for one subscriber, if any job matches. */
  function Digest(sub: Subscriber, jobs: seq<Job>): (m: Option<Message>)
    ensures m.Some? ==> m.value.to == sub.email && m.value.receiver == sub.name
    ensures m.Some? ==> m.value.jobs == Entries(MatchingJobs(jobs, sub.skills))
  {
    var matched := MatchingJobs(jobs, sub.skills);
    if |matched| == 0 then None
    else
      Some(Message(sub.email, FROM, SUBJECT, TEMPLATE, sub.name, Entries(matched)))
  }

  /** A subscriber gets a mail exactly when some job shares one of its skills. */
  lemma DigestIffSharedSkill(sub: Subscriber, jobs: seq<Job>)
    ensures Digest(sub, jobs).Some? <==> exists j :: j in jobs && SharesSkill(j, sub.skills)
  {
    var matched := MatchingJobs(jobs, sub.skills);
    if |matched| > 0 {
      assert matched[0] in matched;
    }
  }

  lemma DigestUnfold(sub: Subscriber, jobs: seq<Job>)
    ensures var matched := MatchingJobs(jobs, sub.skills);
            Digest(sub, jobs)
              == if |matched| == 0 then None
                 else Some(Message(sub.email, FROM, SUBJECT, TEMPLATE, sub.name, Entries(matched)))
  {
  }

  /** The outcome of a run: the messages delivered, in order, and whether a
      rejected send aborted it. */
  datatype Run = Run(sent: seq<Message>, failed: bool)

  /** The run over a list of subscribers, given which messages the mail
      transport accepts. A rejected send is not caught: it ends the run. */
  function WeeklyRun(subs: seq<Subscriber>, jobs: seq<Job>, accepts: Message -> bool): (r: Run)
    ensures |r.sent| <= |subs|
    decreases |subs|
  {
    if subs == [] then Run([], false)
    else
      var prev := WeeklyRun(subs[..|subs| - 1], jobs, accepts);
      var d := Digest(subs[|subs| - 1], jobs);
      if prev.failed || d.None? then prev
      else if accepts(d.value) then Run(prev.sent + [d.value], false)
      else Run(prev.sent, true)
  }

  /** The positions (in the subscriber list) of the subscribers whose
      digest was delivered, in delivery order. */
  function Recipients(subs: seq<Subscriber>, jobs: seq<Job>, accepts: Message -> bool): seq<nat>
    decreases |subs|
  {
    if subs == [] then []
    else
      var init := subs[..|subs| - 1];
      var prev := Recipients(init, jobs, accepts);
      var d := Digest(subs[|subs| - 1], jobs);
      if WeeklyRun(init, jobs, accepts).failed || d.None? then prev
      else if accepts(d.value) then prev + [|subs| - 1]
      else prev
  }

  /** Every delivered message is the digest of a subscriber of the list, and
      they come in subscriber order: the k-th mail belongs to an earlier
      subscriber than the (k+1)-th, so nobody receives two. */
  lemma {:induction false} SentAreDigestsInOrder(subs: seq<Subscriber>, jobs: seq<Job>, accepts: Message -> bool)
    ensures var r := WeeklyRun(subs, jobs, accepts);
            var idx := Recipients(subs, jobs, accepts);
            && |idx| == |r.sent|
            && (forall k :: 0 <= k < |idx| ==> idx[k] < |subs| && Digest(subs[idx[k]], jobs) == Some(r.sent[k]))
            && (forall k, l :: 0 <= k < l < |idx| ==> idx[k] < idx[l])
    decreases |subs|
  {
    if subs != [] {
      var last := |subs| - 1;
      var init := subs[..last];
      SentAreDigestsInOrder(init, jobs, accepts);
      var prev := WeeklyRun(init, jobs, accepts);
      var pidx := Recipients(init, jobs, accepts);
      var d := Digest(subs[last], jobs);
      assert forall k :: 0 <= k < |pidx| ==> subs[pidx[k]] == init[pidx[k]];
      if !prev.failed && d.Some? && accepts(d.value) {
        assert WeeklyRun(subs, jobs, accepts).sent == prev.sent + [d.value];
        assert Recipients(subs, jobs, accepts) == pidx + [last];
      } else {
        assert WeeklyRun(subs, jobs, accepts).sent == prev.sent;
        assert Recipients(subs, jobs, accepts) == pidx;
      }
    }
  }

  /** When the transport accepts everything, every subscriber that shares a
      skill with some job receives its digest, and the run does not fail. */
  lemma {:induction false} AllMatchingSubscribersServed(subs: seq<Subscriber>, jobs: seq<Job>, accepts: Message -> bool, i: nat)
    requires forall m :: accepts(m)
    requires i < |subs| && Digest(subs[i], jobs).Some?
    ensures !WeeklyRun(subs, jobs, accepts).failed
    ensures Digest(subs[i], jobs).value in WeeklyRun(subs, jobs, accepts).sent
    decreases |subs|
  {
    NeverFails(subs, jobs, accepts);
    var init := subs[..|subs| - 1];
    if i < |subs| - 1 {
      assert subs[i] == init[i];
      AllMatchingSubscribersServed(init, jobs, accepts, i);
    } else {
      NeverFails(init, jobs, accepts);
    }
  }

  lemma {:induction false} NeverFails(subs: seq<Subscriber>, jobs: seq<Job>, accepts: Message -> bool)
    requires forall m :: accepts(m)
    ensures !WeeklyRun(subs, jobs, accepts).failed
    decreases |subs|
  {
    if subs != [] {
      NeverFails(subs[..|subs| - 1], jobs, accepts);
    }
  }

  /** A rejected send aborts the batch: once the run over a prefix has failed,
      the subscribers after it receive nothing. */
  lemma {:induction false} FailureStopsBatch(done: seq<Subscriber>, later: seq<Subscriber>, jobs: seq<Job>, accepts: Message -> bool)
    requires WeeklyRun(done, jobs, accepts).failed
    ensures WeeklyRun(done + later, jobs, accepts) == WeeklyRun(done, jobs, accepts)
    decreases |later|
  {
    if later != [] {
      var init := later[..|later| - 1];
      FailureStopsBatch(done, init, jobs, accepts);
      assert (done + later)[..|done + later| - 1] == done + init;
    } else {
      assert done + later == done;
    }
  }

  /** One more subscriber with no matching job: the run is unchanged. */
  lemma RunSkips(subs: seq<Subscriber>, i: nat, jobs: seq<Job>, accepts: Message -> bool)
    requires i < |subs| && Digest(subs[i], jobs).None?
    ensures WeeklyRun(subs[..i + 1], jobs, accepts) == WeeklyRun(subs[..i], jobs, accepts)
  {
    assert subs[..i + 1][..i] == subs[..i];
  }

  /** One more subscriber whose digest is accepted, after a run that has not
      failed: the digest is appended. */
  lemma RunDelivers(subs: seq<Subscriber>, i: nat, jobs: seq<Job>, accepts: Message -> bool, m: Message)
    requires i < |subs| && Digest(subs[i], jobs) == Some(m) && accepts(m)
    requires !WeeklyRun(subs[..i], jobs, accepts).failed
    ensures WeeklyRun(subs[..i + 1], jobs, accepts) == Run(WeeklyRun(subs[..i], jobs, accepts).sent + [m], false)
  {
    assert subs[..i + 1][..i] == subs[..i];
  }

  /** One more subscriber whose digest is rejected, after a run that has not
      failed: the run fails with what was delivered so far. */
  lemma RunRejects(subs: seq<Subscriber>, i: nat, jobs: seq<Job>, accepts: Message -> bool, m: Message)
    requires i < |subs| && Digest(subs[i], jobs) == Some(m) && !accepts(m)
    requires !WeeklyRun(subs[..i], jobs, accepts).failed
    ensures WeeklyRun(subs[..i + 1], jobs, accepts) == Run(WeeklyRun(subs[..i], jobs, accepts).sent, true)
  {
    assert subs[..i + 1][..i] == subs[..i];
  }

  /** A run whose prefix failed is that prefix's run. */
  lemma FailedPrefix(subs: seq<Subscriber>, n: nat, jobs: seq<Job>, accepts: Message -> bool)
    requires n <= |subs| && WeeklyRun(subs[..n], jobs, accepts).failed
    ensures WeeklyRun(subs, jobs, accepts) == WeeklyRun(subs[..n], jobs, accepts)
  {
    var done, later := subs[..n], subs[n..];
    assert done + later == subs;
    FailureStopsBatch(done, later, jobs, accepts);
  }

  /** The mail controller's state: the messages delivered so far. */
  class MailController {
    var outbox: seq<Message>

    constructor ()
      ensures outbox == []
    {
      outbox := [];
    }

    /** `handleTestEmail`: `subscribers` are the live subscribers in the
        order the query returns them, `jobs` the live jobs in listing order.
        Returns false when a send was rejected and the run aborted. */
    method HandleTestEmail(subscribers: seq<Subscriber>, jobs: seq<Job>, accepts: Message -> bool) returns (completed: bool)
      modifies this
      ensures outbox == old(outbox) + WeeklyRun(subscribers, jobs, accepts).sent
      ensures completed == !WeeklyRun(subscribers, jobs, accepts).failed
    {
      var i := 0;
      while i < |subscribers|
        invariant 0 <= i <= |subscribers|
        invariant !WeeklyRun(subscribers[..i], jobs, accepts).failed
        invariant outbox == old(outbox) + WeeklyRun(subscribers[..i], jobs, accepts).sent
      {
        var subscriber := subscribers[i];
        var matching := MatchingJobs(jobs, subscriber.skills);
        DigestUnfold(subscriber, jobs);
        if |matching| > 0 {
          var message := Message(subscriber.email, FROM, SUBJECT, TEMPLATE, subscriber.name, Entries(matching));
          if !accepts(message) {
            RunRejects(subscribers, i, jobs, accepts, message);
            FailedPrefix(subscribers, i + 1, jobs, accepts);
            return false;
          }
          RunDelivers(subscribers, i, jobs, accepts, message);
          outbox := outbox + [message];
        } else {
          RunSkips(subscribers, i, jobs, accepts);
        }
        i := i + 1;
      }
      assert subscribers[..i] == subscribers;
      return true;
    }
  }
}
