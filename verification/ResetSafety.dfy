/**
 Exactly when a job's row may be set back to queued by hand.  Such a reset is
 safe for a job that is neither stored nor in flight, and for one that a merge
 run has just refused, if the backfill loop cannot claim it before that run has
 put it back itself.  In every other reachable state the job can be stored twice.
 */
module ResetSafety {
  import opened Lists
  import opened Pipeline
  import opened JobRows

  // ---- what the program can come to -----------------------------------------

  ghost predicate Reaches(s: State, t: State) {
    exists ls :: Untouched(s, ls) && Run(s, ls) == t
  }

  lemma Stays(s: State)
    ensures Reaches(s, s)
  {
    assert Untouched(s, []) && Run(s, []) == s;
  }

  lemma OneStep(s: State, l: Label)
    requires Enabled(s, l) && Captured(l)
    ensures Reaches(s, Do(s, l))
  {
    RunOne(s, l);
  }

  lemma {:induction false} RunTogether(s: State, a: seq<Label>, b: seq<Label>)
    requires Untouched(s, a) && Untouched(Run(s, a), b)
    ensures Untouched(s, a + b) && Run(s, a + b) == Run(Run(s, a), b)
    decreases a
  {
    hide Enabled, Do, Captured;
    if a == [] {
      assert a + b == b;
    } else {
      assert forall l <- a[1..] :: l in a;
      RunTogether(Do(s, a[0]), a[1..], b);
      assert a + b == [a[0]] + (a[1..] + b) && (a + b)[1..] == a[1..] + b;
      assert forall l <- a + b :: l in a || l in b;
    }
  }

  lemma Then(s: State, t: State, u: State)
    requires Reaches(s, t) && Reaches(t, u)
    ensures Reaches(s, u)
  {
    hide Run, CanRun, Captured;
    var a :| Untouched(s, a) && Run(s, a) == t;
    var b :| Untouched(t, b) && Run(t, b) == u;
    RunTogether(s, a, b);
  }

  lemma Next(s: State, t: State, l: Label)
    requires Reaches(s, t) && Enabled(t, l) && Captured(l)
    ensures Reaches(s, Do(t, l))
  {
    hide Reaches, Enabled, Do;
    OneStep(t, l);
    Then(s, t, Do(t, l));
  }

  // ---- the writer drains the channel ----------------------------------------

  function Rank(at: ProcAt): nat {
    match at
    case Locked(_) => 4
    case Announced(_) => 3
    case Refused(_) => 2
    case Stored(_) => 2
    case Unlocking => 1
    case _ => 0
  }

  /** A merge run ends, refused at the latest, with every status write lost. */
  lemma {:induction false} Finish(s: State, p: Proc) returns (t: State)
    requires InRun(s.At(p))
    ensures Reaches(s, t) && t == s.Move(p, Ready).(mutex := Free, refused := t.refused)
    decreases Rank(s.At(p))
  {
    hide Reaches;
    var l := match s.At(p)
      case Locked(_) => MarkMerging(p, false)
      case Announced(_) => MergeAndUpsert(p, false)
      case Refused(_) => Requeue(p, false)
      case Stored(_) => MarkMerged(p, false)
      case _ => Unlock(p);
    OneStep(s, l);
    var s' := Do(s, l);
    if s.At(p).Unlocking? {
      t := s';
    } else {
      t := Finish(s', p);
      Then(s, s', t);
    }
  }

  /** Nothing else than the positions of writer and backfill, and the list of refused jobs, has changed. */
  predicate OnlyMoved(s: State, t: State) {
    t == s.(writer := t.writer, backfill := t.backfill, mutex := t.mutex, refused := t.refused)
  }

  /** Whoever holds the mutex lets go of it. */
  lemma FreeMutex(s: State) returns (t: State)
    requires MutexOk(s)
    ensures Reaches(s, t) && OnlyMoved(s, t) && t.mutex == Free && MutexOk(t)
    ensures t.writer == (if InRun(s.writer) then Ready else s.writer)
    ensures t.backfill == (if InRun(s.backfill) then Ready else s.backfill)
  {
    hide Reaches;
    if InRun(s.writer) {
      t := Finish(s, Writer);
    } else if InRun(s.backfill) {
      t := Finish(s, Backfill);
    } else {
      Stays(s);
      t := s;
    }
  }

  /** A result the writer has taken is merged and refused. */
  lemma Discard(s: State) returns (t: State)
    requires s.writer.Waiting? && s.mutex == Free && MutexOk(s)
    ensures Reaches(s, t) && OnlyMoved(s, t) && t.writer == Ready && t.backfill == s.backfill && t.mutex == Free
    ensures MutexOk(t)
  {
    hide Reaches;
    OneStep(s, Lock(Writer));
    var s' := Do(s, Lock(Writer));
    t := Finish(s', Writer);
    Then(s, s', t);
  }

  lemma ReadyWriter(s: State) returns (t: State)
    requires MutexOk(s) && !s.writer.Claimed?
    ensures Reaches(s, t) && OnlyMoved(s, t) && t.writer == Ready && t.mutex == Free && MutexOk(t)
  {
    hide Reaches;
    var s' := FreeMutex(s);
    if s'.writer.Ready? {
      t := s';
    } else {
      t := Discard(s');
      Then(s, s', t);
    }
  }

  lemma {:induction false} Drain(s: State, i: nat) returns (t: State)
    requires s.writer == Ready && s.mutex == Free && MutexOk(s) && i <= |s.results|
    ensures Reaches(s, t) && OnlyMoved(s.(results := s.results[i..]), t)
    ensures t.writer == Ready && t.mutex == Free && MutexOk(t)
    decreases i
  {
    hide Reaches;
    if i == 0 {
      Stays(s);
      t := s;
      assert s.results[0..] == s.results;
    } else {
      OneStep(s, Receive);
      var s1 := Do(s, Receive);
      var s2 := Discard(s1);
      Then(s, s1, s2);
      t := Drain(s2, i - 1);
      Then(s, s2, t);
      assert s.results[1..][i - 1..] == s.results[i..];
    }
  }

  // ---- a job in flight can be stored, its row as it is ----------------------

  /** The job has been stored once more, and no row has changed. */
  predicate StoredMore(s: State, job: nat, t: State) {
    t.stored == s.stored + [job] && t.rows == s.rows
  }

  lemma StoreLocked(s: State, p: Proc, job: nat) returns (t: State)
    requires s.At(p) == Locked(job) || s.At(p) == Announced(job)
    ensures Reaches(s, t) && StoredMore(s, job, t)
  {
    hide Reaches;
    var s' := s;
    Stays(s);
    if s.At(p).Locked? {
      s' := Do(s, MarkMerging(p, false));
      OneStep(s, MarkMerging(p, false));
    }
    Next(s, s', MergeAndUpsert(p, true));
    t := Do(s', MergeAndUpsert(p, true));
  }

  lemma StoreWaiting(s: State, p: Proc, job: nat) returns (t: State)
    requires MutexOk(s) && s.At(p) == Waiting(job)
    ensures Reaches(s, t) && StoredMore(s, job, t)
  {
    hide Reaches;
    var s1 := FreeMutex(s);
    Next(s, s1, Lock(p));
    var s2 := Do(s1, Lock(p));
    t := StoreLocked(s2, p, job);
    Then(s, s2, t);
  }

  lemma StoreInChannel(s: State, i: nat, job: nat) returns (t: State)
    requires MutexOk(s) && !s.writer.Claimed? && i < |s.results| && s.results[i] == job
    ensures Reaches(s, t) && StoredMore(s, job, t)
  {
    hide Reaches;
    var s1 := ReadyWriter(s);
    var s2 := Drain(s1, i);
    Then(s, s1, s2);
    Next(s, s2, Receive);
    var s3 := Do(s2, Receive);
    t := StoreWaiting(s3, Writer, job);
    Then(s, s3, t);
  }

  lemma StoreSending(s: State, w: nat, job: nat) returns (t: State)
    requires MutexOk(s) && !s.writer.Claimed? && w < |s.workers| && s.workers[w] == Send(job)
    ensures Reaches(s, t) && StoredMore(s, job, t)
  {
    hide Reaches;
    var s1 := ReadyWriter(s);
    var s2 := Drain(s1, |s1.results|);
    Then(s, s1, s2);
    Next(s, s2, SendResult(w));
    var s3 := Do(s2, SendResult(w));
    t := StoreInChannel(s3, 0, job);
    Then(s, s3, t);
  }

  lemma StoreAtWorker(s: State, w: nat, job: nat) returns (t: State)
    requires MutexOk(s) && !s.writer.Claimed? && TokenAt(s, AtWorker(w)) == Of(job)
    ensures Reaches(s, t) && StoredMore(s, job, t)
  {
    hide Reaches;
    if s.workers[w].Parse? {
      OneStep(s, ParseOk(w));
      var s' := Do(s, ParseOk(w));
      t := StoreSending(s', w, job);
      Then(s, s', t);
    } else {
      t := StoreSending(s, w, job);
    }
  }

  lemma StoreAtProc(s: State, p: Proc, job: nat) returns (t: State)
    requires MutexOk(s) && !s.writer.Claimed? && TokenAt(s, AtProc(p)) == Of(job) && !s.At(p).Refused?
    ensures Reaches(s, t) && StoredMore(s, job, t)
  {
    hide Reaches;
    match s.At(p)
    case Waiting(_) => t := StoreWaiting(s, p, job);
    case Claimed(_) =>
      OneStep(s, BackfillParsed);
      var s' := Do(s, BackfillParsed);
      t := StoreWaiting(s', Backfill, job);
      Then(s, s', t);
    case _ => t := StoreLocked(s, p, job);
  }

  /** While the writer is about to put a refused job back, a backfill loop that is free claims it first. */
  lemma StoreOvertaking(s: State, job: nat) returns (t: State)
    requires MutexOk(s) && s.writer == Refused(job) && (s.backfill.Ready? || s.backfill.Claimed?)
    requires Reads(s, job, CLAIMABLE)
    ensures Reaches(s, t) && t.stored == s.stored + [job] && Reads(t, job, CLAIMABLE)
  {
    hide Reaches;
    var s1 := s.(backfill := Ready);
    Stays(s);
    if s.backfill.Claimed? {
      OneStep(s, BackfillError(false));
    }
    Next(s, s1, Claim(job, true));
    var s2 := Do(s1, Claim(job, true));
    Next(s, s2, Requeue(Writer, true));
    var s3 := Do(s2, Requeue(Writer, true));
    Next(s, s3, BackfillParsed);
    var s4 := Do(s3, BackfillParsed);
    t := StoreWaiting(s4, Backfill, job);
    Then(s, s4, t);
  }

  /** A stored job whose row is claimable can be stored again. */
  lemma StoredAgain(s: State, t: State, job: nat)
    requires Reaches(s, t) && job in t.stored && Reads(t, job, CLAIMABLE)
    ensures !StoresOnce(s)
  {
    var u := RedoLeads(t, job);
    RedoUntouched(job);
    assert Untouched(t, Redo(job)) && Run(t, Redo(job)) == u;
    hide Run, CanRun, Captured, Redo, Leads;
    assert Reaches(t, u);
    Then(s, t, u);
    assert !Distinct(u.stored) by {
      var i :| 0 <= i < |t.stored| && t.stored[i] == job;
      assert u.stored[i] == u.stored[|t.stored|];
    }
    var ls :| Untouched(s, ls) && Run(s, ls) == u;
  }

  // ---- a refused job that no one can overtake --------------------------------

  /** A merge run has just refused the job, and the backfill loop cannot claim it before that run puts it back. */
  predicate AboutToReturn(s: State, job: nat) {
    s.backfill == Refused(job) || (s.writer == Refused(job) && s.backfill.Waiting?)
  }

  function WithRow(s: State, job: nat, row: JobRow): State {
    s.(rows := s.rows[job := row])
  }

  /** Only the row of that job is not as the invariant wants it. */
  ghost predicate Harmless(s: State, job: nat) {
    AboutToReturn(s, job) && Reads(s, job, CLAIMABLE) && Inv(WithRow(s, job, MERGING))
  }

  lemma ResetHarmless(s: State, job: nat)
    requires Inv(s) && job in s.rows && AboutToReturn(s, job)
    ensures Harmless(Reset(s, job), job)
  {
    var s0 := WithRow(s, job, MERGING);
    assert WithRow(Reset(s, job), job, MERGING) == s0;
    assert forall pl :: TokenAt(s0, pl) == TokenAt(s, pl);
    forall pl ensures Exclusive(s0, TokenAt(s0, pl)) {
      assert Exclusive(s, TokenAt(s, pl));
    }
    assert OnePlace(s0);
  }

  /** The action does the same to the two states, but for the row of the job. */
  lemma SameButRow(s: State, l: Label, job: nat)
    requires Harmless(s, job) && Enabled(s, l) && Captured(l)
    ensures Enabled(WithRow(s, job, MERGING), l)
    ensures var s' := Do(WithRow(s, job, MERGING), l);
      || Do(s, l) == s'
      || (Do(s, l) == WithRow(s', job, CLAIMABLE) && Reads(s', job, MERGING))
  {
    assert !l.Claim?;
    var s0 := WithRow(s, job, MERGING);
    assert s.rows == s0.rows[job := CLAIMABLE];
    RowsApart(s, l, job);
  }

  function AfterWrite(rows: Rows, written: bool, j: nat, row: JobRow): Rows {
    if written && j in rows then rows[j := row] else rows
  }

  lemma WriteApart(rows: Rows, written: bool, j: nat, row: JobRow, job: nat)
    requires job in rows && rows[job] == CLAIMABLE
    ensures var a, b := AfterWrite(rows, written, j, row), AfterWrite(rows[job := MERGING], written, j, row);
      a == b || (a == b[job := CLAIMABLE] && job in b && b[job] == MERGING)
  {
    var b := AfterWrite(rows[job := MERGING], written, j, row);
    if written && j == job {
      assert b == rows[job := row];
    } else {
      assert AfterWrite(rows, written, j, row) == b[job := CLAIMABLE];
    }
  }

  /** The status write an action makes, if it makes one. */
  function WriteOf(s: State, l: Label): (bool, nat, JobRow)
    requires Enabled(s, l)
  {
    match l
    case Adopt(w, written) => (written, s.workers[w].task, PARSING)
    case ParseError(w, written) => (written, s.workers[w].job, FAILED)
    case PublishReady(w, written) => (written, s.workers[w].job, READY)
    case BackfillError(written) => (written, s.backfill.job, FAILED)
    case MarkMerging(p, written) => (written, s.At(p).job, MERGING)
    case Requeue(p, written) => (written, s.At(p).job, CLAIMABLE)
    case MarkMerged(p, written) => (written, s.At(p).job, MERGED)
    case _ => (false, 0, FAILED)
  }

  lemma RowsAfter(s: State, l: Label)
    requires Enabled(s, l) && !l.Claim? && !l.Insert?
    ensures var (written, j, row) := WriteOf(s, l); Do(s, l).rows == AfterWrite(s.rows, written, j, row)
  {
  }

  lemma RowsApart(s: State, l: Label, job: nat)
    requires Reads(s, job, CLAIMABLE) && Enabled(s, l) && !l.Claim? && Enabled(WithRow(s, job, MERGING), l)
    ensures var a, b := Do(s, l).rows, Do(WithRow(s, job, MERGING), l).rows;
      a == b || (a == b[job := CLAIMABLE] && job in b && b[job] == MERGING)
  {
    if l.Insert? {
      InsertApart(s.rows, l.id, job);
    } else {
      hide Do, Enabled, AfterWrite;
      RowsAfter(s, l);
      RowsAfter(WithRow(s, job, MERGING), l);
      var (written, j, row) := WriteOf(s, l);
      WriteApart(s.rows, written, j, row, job);
    }
  }

  lemma InsertApart(rows: Rows, id: nat, job: nat)
    requires job in rows && rows[job] == CLAIMABLE && id !in rows
    ensures rows[id := PARSING] == rows[job := MERGING][id := PARSING][job := CLAIMABLE]
    ensures rows == rows[job := MERGING][job := CLAIMABLE]
  {
  }

  lemma Returned(s: State, l: Label, job: nat)
    requires Inv(s) && AboutToReturn(s, job) && Enabled(s, l) && Captured(l) && !AboutToReturn(Do(s, l), job)
    ensures NotInFlight(Do(s, l), job)
  {
    var p := if s.backfill == Refused(job) then Backfill else Writer;
    assert TokenAt(s, AtProc(p)) == Of(job);
    assert l == Requeue(p, true) || l == Requeue(p, false) || l == Restart by {
      LeavesRefused(s, l, job, p);
    }
    forall pl ensures TokenAt(Do(s, l), pl) != Of(job) {
      Traced(s, l, pl);
    }
  }

  lemma LeavesRefused(s: State, l: Label, job: nat, p: Proc)
    requires MutexOk(s) && AboutToReturn(s, job) && Enabled(s, l) && !AboutToReturn(Do(s, l), job)
    requires p == if s.backfill == Refused(job) then Backfill else Writer
    ensures l == Requeue(p, true) || l == Requeue(p, false) || l == Restart
  {
  }

  lemma StepHarmless(s: State, l: Label, job: nat)
    requires Harmless(s, job) && Enabled(s, l) && Captured(l)
    ensures Inv(Do(s, l)) || Harmless(Do(s, l), job)
  {
    hide Do, Enabled, Captured, Inv;
    var s0 := WithRow(s, job, MERGING);
    SameButRow(s, l, job);
    StepKeepsInv(s0, l);
    var s', t := Do(s0, l), Do(s, l);
    if t != s' {
      assert WithRow(t, job, MERGING) == s';
      if !AboutToReturn(s', job) {
        Returned(s0, l, job);
        StillNotStored(s0, l, job);
        ResetKeepsInv(s', job);
        assert Reset(s', job) == t;
      }
    }
  }

  lemma StillNotStored(s: State, l: Label, job: nat)
    requires Inv(s) && AboutToReturn(s, job) && Enabled(s, l) && !AboutToReturn(Do(s, l), job)
    ensures job !in Do(s, l).stored
  {
    var p := if s.backfill == Refused(job) then Backfill else Writer;
    LeavesRefused(s, l, job, p);
    assert Exclusive(s, TokenAt(s, AtProc(p)));
  }

  lemma {:induction false} RunHarmless(s: State, ls: seq<Label>, job: nat)
    requires Untouched(s, ls) && (Inv(s) || Harmless(s, job))
    ensures Distinct(Run(s, ls).stored)
    decreases ls
  {
    hide Enabled, Do, Captured, Distinct, AboutToReturn;
    if ls != [] {
      assert ls[0] in ls && forall l <- ls[1..] :: l in ls;
      if Inv(s) {
        StepKeepsInv(s, ls[0]);
      } else {
        StepHarmless(s, ls[0], job);
      }
      RunHarmless(Do(s, ls[0]), ls[1..], job);
    }
  }

  // ---- the condition ---------------------------------------------------------

  lemma {:induction false} WriterNeverClaims(s: State, ls: seq<Label>)
    requires CanRun(s, ls) && !s.writer.Claimed?
    ensures !Run(s, ls).writer.Claimed?
    decreases ls
  {
    if ls != [] {
      WriterNeverClaims(Do(s, ls[0]), ls[1..]);
    }
  }

  /** A job in flight that no run has just refused can be stored while its row is claimable. */
  lemma StoreInFlight(s: State, job: nat, pl: Place) returns (t: State)
    requires MutexOk(s) && !s.writer.Claimed? && Reads(s, job, CLAIMABLE)
    requires TokenAt(s, pl) == Of(job) && !(pl.AtProc? && s.At(pl.p).Refused?)
    ensures Reaches(s, t) && t.stored == s.stored + [job] && Reads(t, job, CLAIMABLE)
  {
    hide Reaches, MutexOk;
    match pl
    case AtWorker(w) => t := StoreAtWorker(s, w, job);
    case InChannel(i) => t := StoreInChannel(s, i, job);
    case AtProc(p) => t := StoreAtProc(s, p, job);
  }

  lemma UnsafeInFlight(s: State, job: nat, pl: Place)
    requires Inv(s) && !s.writer.Claimed? && job in s.rows
    requires TokenAt(s, pl) == Of(job) && !AboutToReturn(s, job)
    ensures !StoresOnce(Reset(s, job))
  {
    hide Reaches, StoresOnce;
    var r, t := Reset(s, job), s;
    assert TokenAt(r, pl) == TokenAt(s, pl) && MutexOk(r);
    if pl.AtProc? && r.At(pl.p).Refused? {
      t := StoreOvertaking(r, job);
    } else {
      t := StoreInFlight(r, job, pl);
    }
    assert t.stored[|s.stored|] == job;
    StoredAgain(r, t, job);
  }

  /**
   In every reachable state, whatever the job is doing: resetting its row keeps
   every job stored at most once, in every continuation, if and only if the job
   is not stored and is not in flight, except in the hands of a run that has just
   refused it and that no claim can overtake.
   */
  lemma {:induction false} ResetSafeExactly(n: nat, rows: Rows, ls: seq<Label>, job: nat)
    requires Untouched(Start(n, rows), ls) && job in Run(Start(n, rows), ls).rows
    ensures var s := Run(Start(n, rows), ls);
      StoresOnce(Reset(s, job)) <==> job !in s.stored && (NotInFlight(s, job) || AboutToReturn(s, job))
  {
    hide Run, CanRun, Enabled, Do, NotInFlight, AboutToReturn, Inv, StoresOnce;
    var s := Run(Start(n, rows), ls);
    StartInv(n, rows);
    ReachableInv(Start(n, rows), ls);
    WriterNeverClaims(Start(n, rows), ls);
    if NotInFlight(s, job) {
      ResetSafeIff(n, rows, ls, job);
    } else {
      var pl := InFlightAt(s, job);
      if AboutToReturn(s, job) {
        NotStoredYet(s, job, pl);
        ResetHarmless(s, job);
        SafeRuns(Reset(s, job), job);
      } else {
        UnsafeInFlight(s, job, pl);
      }
    }
  }

  lemma InFlightAt(s: State, job: nat) returns (pl: Place)
    requires !NotInFlight(s, job)
    ensures TokenAt(s, pl) == Of(job)
  {
    pl :| TokenAt(s, pl) == Of(job);
  }

  lemma NotStoredYet(s: State, job: nat, pl: Place)
    requires Inv(s) && TokenAt(s, pl) == Of(job)
    ensures job !in s.stored
  {
    assert Exclusive(s, TokenAt(s, pl));
  }

  lemma SafeRuns(s: State, job: nat)
    requires Harmless(s, job)
    ensures StoresOnce(s)
  {
    hide Run, CanRun, Harmless, Captured;
    forall ls | Untouched(s, ls) ensures Distinct(Run(s, ls).stored) {
      RunHarmless(s, ls, job);
    }
  }
}
