/** `ResumesService`: a candidate's CV submissions, whose status changes are
    recorded in a history, listed newest first for their owner. */
module ResumesService {
  import opened Common
  import opened Store
  import opened Entities
  import Pagination

  const PENDING: string := "PENDING"

  /** The body of a submission (`CreateUserCvDto`). */
  datatype CvInput = CvInput(url: string, companyId: Id, jobId: Id)

  /** The stored status is the status of the last history entry. */
  predicate StatusRecorded(r: Resume) {
    |r.history| > 0 && r.status == r.history[|r.history| - 1].status
  }

  /** The resume a submission creates: it belongs to the actor (email and id
      are taken from the actor, never from the body) and is PENDING, with one
      history entry. */
  function Submitted(input: CvInput, actor: Actor, now: Time): (r: Resume)
    ensures r.email == actor.email && r.userId == actor.id
    ensures r.url == input.url && r.companyId == input.companyId && r.jobId == input.jobId
    ensures r.status == PENDING && r.history == [HistoryEntry(PENDING, now, actor)]
    ensures StatusRecorded(r)
  {
    Resume(actor.email, actor.id, input.url, input.companyId, input.jobId, PENDING,
           [HistoryEntry(PENDING, now, actor)])
  }

  /** A status change: the status is set and one entry with that status is
      pushed onto the history. */
  function ChangeStatus(r: Resume, status: string, actor: Actor, now: Time): (r': Resume)
    ensures r'.status == status
    ensures |r'.history| == |r.history| + 1 && r'.history[..|r.history|] == r.history
    ensures r'.history[|r.history|] == HistoryEntry(status, now, actor)
    ensures r'.email == r.email && r'.userId == r.userId && r'.url == r.url
    ensures r'.companyId == r.companyId && r'.jobId == r.jobId
  {
    r.(status := status, history := r.history + [HistoryEntry(status, now, actor)])
  }

  /** Every status change keeps the status and the history in step, whatever
      the state before. */
  lemma ChangeStatusRecords(r: Resume, status: string, actor: Actor, now: Time)
    ensures StatusRecorded(ChangeStatus(r, status, actor, now))
  {
  }

  /** The history is the submission followed by one entry per status change,
      in order: after changes s1 .. sn, it holds PENDING, s1, .., sn. */
  function ChangeAll(r: Resume, changes: seq<(string, Time)>, actor: Actor): Resume
    decreases |changes|
  {
    if changes == [] then r
    else ChangeStatus(ChangeAll(r, changes[..|changes| - 1], actor), changes[|changes| - 1].0, actor, changes[|changes| - 1].1)
  }

  lemma {:induction false} HistoryLogsEveryChange(input: CvInput, actor: Actor, now: Time, changes: seq<(string, Time)>)
    ensures var r := ChangeAll(Submitted(input, actor, now), changes, actor);
            && |r.history| == |changes| + 1
            && r.history[0] == HistoryEntry(PENDING, now, actor)
            && (forall i :: 0 <= i < |changes| ==> r.history[i + 1] == HistoryEntry(changes[i].0, changes[i].1, actor))
            && StatusRecorded(r)
    decreases |changes|
  {
    if changes != [] {
      var init := changes[..|changes| - 1];
      HistoryLogsEveryChange(input, actor, now, init);
      var prev := ChangeAll(Submitted(input, actor, now), init, actor);
      var r := ChangeAll(Submitted(input, actor, now), changes, actor);
      assert r == ChangeStatus(prev, changes[|changes| - 1].0, actor, changes[|changes| - 1].1);
      assert r.history[..|prev.history|] == prev.history;
      forall i | 0 <= i < |changes|
        ensures r.history[i + 1] == HistoryEntry(changes[i].0, changes[i].1, actor)
      {
        if i < |init| {
          assert r.history[i + 1] == prev.history[i + 1];
          assert init[i] == changes[i];
        }
      }
    }
  }

  /** `ids` are stored resumes ordered by creation time, newest first. */
  predicate NewestFirst(t: Table<Resume>, ids: seq<Id>) {
    && (forall i :: 0 <= i < |ids| ==> ids[i] in t)
    && (forall i, j :: 0 <= i < j < |ids| ==> t[ids[i]].audit.createdAt >= t[ids[j]].audit.createdAt)
  }

  /** Places `k` in front of the first resume no newer than it. */
  function InsertByDate(t: Table<Resume>, ids: seq<Id>, k: Id): (r: seq<Id>)
    requires k in t && k !in ids && NewestFirst(t, ids) && Distinct(ids)
    ensures |r| == |ids| + 1
    ensures forall x :: x in r <==> x in ids || x == k
    ensures NewestFirst(t, r) && Distinct(r)
    decreases |ids|
  {
    if ids == [] then [k]
    else if t[k].audit.createdAt >= t[ids[0]].audit.createdAt then
      NewestFirstTail(t, ids);
      NewestFirstCons(t, k, ids);
      [k] + ids
    else
      NewestFirstTail(t, ids);
      DistinctTail(ids);
      var rest := InsertByDate(t, ids[1..], k);
      NewestFirstCons(t, ids[0], rest);
      [ids[0]] + rest
  }

  /** The tail of a newest-first list is newest first, its head is no older
      than anything in the tail, and no element repeats the head. */
  lemma NewestFirstTail(t: Table<Resume>, ids: seq<Id>)
    requires NewestFirst(t, ids) && ids != []
    ensures NewestFirst(t, ids[1..])
    ensures forall x :: x in ids ==> x in t
    ensures forall x :: x in ids[1..] ==> t[ids[0]].audit.createdAt >= t[x].audit.createdAt
  {
    forall x | x in ids[1..] ensures t[ids[0]].audit.createdAt >= t[x].audit.createdAt {
      var j :| 0 <= j < |ids[1..]| && ids[1..][j] == x;
      assert x == ids[j + 1];
    }
  }

  /** Putting in front a resume no older than every listed one, and not
      already listed, keeps the list newest first and duplicate-free. */
  lemma NewestFirstCons(t: Table<Resume>, h: Id, rest: seq<Id>)
    requires h in t && NewestFirst(t, rest) && Distinct(rest) && h !in rest
    requires forall x :: x in rest ==> t[h].audit.createdAt >= t[x].audit.createdAt
    ensures NewestFirst(t, [h] + rest) && Distinct([h] + rest)
    ensures forall x :: x in [h] + rest <==> x == h || x in rest
  {
    var r := [h] + rest;
    forall i, j | 0 <= i < j < |r|
      ensures t[r[i]].audit.createdAt >= t[r[j]].audit.createdAt && r[i] != r[j]
    {
      assert r[j] == rest[j - 1] && rest[j - 1] in rest;
      if i > 0 {
        assert r[i] == rest[i - 1];
      }
    }
  }

  class ResumesService {
    const db: Database

    constructor (db: Database)
      ensures this.db == db
    {
      this.db := db;
    }

    /** `create`: the submission is stored with the actor as creator; the new
        id and creation time are returned. */
    method Create(input: CvInput, actor: Actor, id: Id, now: Time) returns (r: Result<Created>)
      requires IsFreshId(id, db.resumes)
      modifies db`resumes
      ensures r == Ok(Created(id, now))
      ensures db.resumes == Insert(old(db.resumes), id, Submitted(input, actor, now), Some(actor), now)
    {
      db.resumes := Insert(db.resumes, id, Submitted(input, actor, now), Some(actor), now);
      return Ok(Created(id, now));
    }

    /** `findAll`: the page metadata for the resumes the filter selects, or
        BadRequest when the skip the page asks for is negative. */
    method FindAll(current: int, limit: Option<int>, filter: Resume -> bool) returns (r: Result<Pagination.Meta>)
      ensures r.Err? <==> Pagination.SkipRejected(current, limit)
      ensures r.Err? ==> r.error == BadRequest
      ensures r.Ok? ==> r.value.total == |Matching(db.resumes, filter)|
      ensures r.Ok? ==> r.value == Pagination.PageMeta(current, limit, Count(db.resumes, filter))
    {
      if Pagination.SkipRejected(current, limit) {
        return Err(BadRequest);
      }
      return Ok(Pagination.PageMeta(current, limit, Count(db.resumes, filter)));
    }

    /** `findOne`: a malformed id is rejected with NotFound; otherwise the
        resume with that id, if stored, audit fields included. */
    method FindOne(id: Id) returns (r: Result<Option<Doc<Resume>>>)
      ensures !IsObjectId(id) <==> r == Err(NotFound)
      ensures IsObjectId(id) && id in db.resumes ==> r == Ok(Some(db.resumes[id]))
      ensures IsObjectId(id) && id !in db.resumes ==> r == Ok(None)
    {
      if !IsObjectId(id) {
        return Err(NotFound);
      }
      if id in db.resumes {
        return Ok(Some(db.resumes[id]));
      }
      return Ok(None);
    }

    /** `findByUsers`: the listed resumes of the actor, each once, newest first. */
    method FindByUsers(actor: Actor) returns (ids: seq<Id>)
      ensures forall k :: k in ids <==> k in db.resumes && Listed(db.resumes[k]) && db.resumes[k].data.userId == actor.id
      ensures Distinct(ids) && NewestFirst(db.resumes, ids)
    {
      var rest := set k | k in db.resumes && Listed(db.resumes[k]) && db.resumes[k].data.userId == actor.id;
      ids := [];
      while rest != {}
        invariant Distinct(ids) && NewestFirst(db.resumes, ids)
        invariant forall k :: k in ids ==> k !in rest
        invariant forall k :: k in ids || k in rest <==> k in db.resumes && Listed(db.resumes[k]) && db.resumes[k].data.userId == actor.id
        decreases |rest|
      {
        var k :| k in rest;
        ids := InsertByDate(db.resumes, ids, k);
        rest := rest - {k};
      }
    }

    /** `update`: a malformed id is rejected (the NotFound is rethrown as
        BadRequest); otherwise the status changes, one history entry is
        appended and the actor stamped as updater. */
    method Update(id: Id, status: string, actor: Actor, now: Time) returns (r: Result<()>)
      modifies db`resumes
      ensures r.Err? <==> !IsObjectId(id)
      ensures r.Err? ==> r.error == BadRequest && db.resumes == old(db.resumes)
      ensures r.Ok? ==> db.resumes == UpdateOne(old(db.resumes), id, x => ChangeStatus(x, status, actor, now), actor)
      ensures forall k :: k in old(db.resumes) && StatusRecorded(old(db.resumes)[k].data) ==> StatusRecorded(db.resumes[k].data)
    {
      if !IsObjectId(id) {
        return Err(BadRequest);
      }
      db.resumes := UpdateOne(db.resumes, id, x => ChangeStatus(x, status, actor, now), actor);
      return Ok(());
    }

    /** `remove`: a malformed id is rejected with NotFound; otherwise the
        actor is stamped as deleter and the resume soft-deleted. */
    method Remove(id: Id, actor: Actor, now: Time) returns (r: Result<nat>)
      modifies db`resumes
      ensures r.Err? <==> !IsObjectId(id)
      ensures r.Err? ==> r.error == NotFound && db.resumes == old(db.resumes)
      ensures r.Ok? ==> (db.resumes, r.value) == StampAndDelete(old(db.resumes), id, actor, now)
    {
      if !IsObjectId(id) {
        return Err(NotFound);
      }
      var (resumes', deleted) := StampAndDelete(db.resumes, id, actor, now);
      db.resumes := resumes';
      return Ok(deleted);
    }
  }
}
