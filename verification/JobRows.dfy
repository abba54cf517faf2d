/**
 What becomes of a job's row once a merge run has written it.  The only action
 that can still spoil it is a worker's late `parsed_ready`; a row that reads
 merged, or queued after a refusal, survives exactly when no worker stands
 before that write.  Also, when a row may be set back to queued by hand.
 */
module JobRows {
  import opened Lists
  import opened Pipeline

  /** No worker is about to write `parsed_ready` for the job. */
  predicate NoPublisher(s: State, job: nat) {
    forall w | 0 <= w < |s.workers| :: s.workers[w] != Publish(job)
  }

  ghost predicate NotInFlight(s: State, job: nat) {
    forall pl :: TokenAt(s, pl) != Of(job)
  }

  predicate Reads(s: State, job: nat, row: JobRow) {
    job in s.rows && s.rows[job] == row
  }

  /** A row that no one but the backfill's claim will write with anything else. */
  ghost predicate Settled(s: State, job: nat, row: JobRow) {
    && Reads(s, job, row) && row in {MERGED, CLAIMABLE, READY}
    && NotInFlight(s, job)
    && (row != MERGED ==> job !in s.stored)
    && (row != READY ==> NoPublisher(s, job))
  }

  predicate Claims(l: Label, job: nat) {
    l.Claim? && l.id == job
  }

  lemma NotClaimed(s: State, l: Label, job: nat, row: JobRow)
    requires Inv(s) && Enabled(s, l) && Captured(l) && Settled(s, job, row) && !(row == CLAIMABLE && Claims(l, job))
    ensures Reads(Do(s, l), job, row)
  {
    match l
    case ParseError(w, _) => assert TokenAt(s, AtWorker(w)) != Of(job);
    case BackfillError(_) => assert TokenAt(s, AtProc(Backfill)) != Of(job);
    case MarkMerging(p, _) => assert TokenAt(s, AtProc(p)) != Of(job);
    case Requeue(p, _) => assert TokenAt(s, AtProc(p)) != Of(job);
    case _ =>
  }

  lemma StaysOutOfFlight(s: State, l: Label, job: nat, row: JobRow)
    requires Inv(s) && Enabled(s, l) && Captured(l) && Settled(s, job, row) && !(row == CLAIMABLE && Claims(l, job))
    ensures NotInFlight(Do(s, l), job)
  {
    forall pl ensures TokenAt(Do(s, l), pl) != Of(job) {
      Traced(s, l, pl);
      assert TokenAt(s, Origin(s, l, pl)) != Of(job);
    }
  }

  lemma StaysUnpublished(s: State, l: Label, job: nat)
    requires Enabled(s, l) && NotInFlight(s, job) && NoPublisher(s, job)
    ensures NoPublisher(Do(s, l), job)
  {
    if l.SendResult? {
      assert TokenAt(s, AtWorker(l.w)) != Of(job);
    }
  }

  lemma StepKeepsSettled(s: State, l: Label, job: nat, row: JobRow)
    requires Inv(s) && Enabled(s, l) && Captured(l) && Settled(s, job, row) && !(row == CLAIMABLE && Claims(l, job))
    ensures Settled(Do(s, l), job, row)
  {
    hide Do, Enabled, TokenAt;
    NotClaimed(s, l, job, row);
    StaysOutOfFlight(s, l, job, row);
    if row != READY {
      StaysUnpublished(s, l, job);
    }
    if job !in s.stored {
      StoredBy(s, l, job);
    }
  }

  lemma {:induction false} RunKeepsSettled(s: State, ls: seq<Label>, job: nat, row: JobRow)
    requires Inv(s) && Untouched(s, ls) && Settled(s, job, row)
    requires row == CLAIMABLE ==> forall l <- ls :: !Claims(l, job)
    ensures Settled(Run(s, ls), job, row)
    decreases ls
  {
    hide Enabled, Do, Inv, Settled, Captured;
    if ls != [] {
      assert ls[0] in ls && forall l <- ls[1..] :: l in ls;
      StepKeepsSettled(s, ls[0], job, row);
      StepKeepsInv(s, ls[0]);
      RunKeepsSettled(Do(s, ls[0]), ls[1..], job, row);
    }
  }

  // ---- when a row survives the worker ---------------------------------------

  /** Whatever the program does next, the row reads the same. */
  ghost predicate AlwaysReads(s: State, job: nat, row: JobRow) {
    forall ls | Untouched(s, ls) :: Reads(Run(s, ls), job, row)
  }

  /** Until the backfill claims the job, the row reads the same. */
  ghost predicate ReadsUntilClaimed(s: State, job: nat, row: JobRow) {
    forall ls | Untouched(s, ls) && (forall l <- ls :: !Claims(l, job)) :: Reads(Run(s, ls), job, row)
  }

  lemma RunOne(s: State, l: Label)
    requires Enabled(s, l) && Captured(l)
    ensures Untouched(s, [l]) && Run(s, [l]) == Do(s, l)
  {
    hide Enabled, Do;
    assert [l][1..] == [];
    assert CanRun(Do(s, l), []);
  }

  /** A publisher can replace the row at once. */
  lemma PublisherWrites(s: State, job: nat, w: nat)
    requires job in s.rows && w < |s.workers| && s.workers[w] == Publish(job)
    ensures Untouched(s, [PublishReady(w, true)]) && Reads(Run(s, [PublishReady(w, true)]), job, READY)
  {
    RunOne(s, PublishReady(w, true));
  }

  /** A stored job's row that reads merged does so for good exactly when no worker stands before its late write. */
  lemma {:induction false} MergedSurvives(n: nat, rows: Rows, ls: seq<Label>, job: nat)
    requires Untouched(Start(n, rows), ls)
    requires var s := Run(Start(n, rows), ls); job in s.stored && Reads(s, job, MERGED)
    ensures var s := Run(Start(n, rows), ls); AlwaysReads(s, job, MERGED) <==> NoPublisher(s, job)
  {
    hide Enabled, Do, Run, CanRun;
    var s := Run(Start(n, rows), ls);
    StartInv(n, rows);
    ReachableInv(Start(n, rows), ls);
    if NoPublisher(s, job) {
      forall pl ensures TokenAt(s, pl) != Of(job) {
        assert Exclusive(s, TokenAt(s, pl));
      }
      forall ls' | Untouched(s, ls') ensures Reads(Run(s, ls'), job, MERGED) {
        RunKeepsSettled(s, ls', job, MERGED);
      }
    } else {
      var w :| 0 <= w < |s.workers| && s.workers[w] == Publish(job);
      PublisherWrites(s, job, w);
    }
  }

  /**
   A row put back to queued by a refused run waits for the backfill exactly
   when no worker stands before its late write.
   */
  lemma {:induction false} RequeuedSurvives(n: nat, rows: Rows, ls: seq<Label>, job: nat)
    requires Untouched(Start(n, rows), ls) && Reads(Run(Start(n, rows), ls), job, CLAIMABLE)
    ensures var s := Run(Start(n, rows), ls); ReadsUntilClaimed(s, job, CLAIMABLE) <==> NoPublisher(s, job)
  {
    hide Enabled, Do, Run, CanRun;
    var s := Run(Start(n, rows), ls);
    StartInv(n, rows);
    ReachableInv(Start(n, rows), ls);
    if NoPublisher(s, job) {
      QueuedIsSettled(s, job);
      forall ls' | Untouched(s, ls') && (forall l <- ls' :: !Claims(l, job))
        ensures Reads(Run(s, ls'), job, CLAIMABLE)
      {
        RunKeepsSettled(s, ls', job, CLAIMABLE);
      }
    } else {
      var w :| 0 <= w < |s.workers| && s.workers[w] == Publish(job);
      PublisherWrites(s, job, w);
    }
  }

  lemma QueuedIsSettled(s: State, job: nat)
    requires Inv(s) && Reads(s, job, CLAIMABLE)
    ensures NotInFlight(s, job) && job !in s.stored
  {
    forall pl ensures TokenAt(s, pl) != Of(job) {
      assert Exclusive(s, TokenAt(s, pl));
    }
  }

  /**
   What a refused job loses when a worker's late write replaces its queued row:
   the promised retry.  No continuation claims it, stores it or changes its row.
   */
  lemma {:induction false} LateWriteLosesRetry(n: nat, rows: Rows, ls: seq<Label>, job: nat, w: nat, ls': seq<Label>)
    requires Untouched(Start(n, rows), ls) && Reads(Run(Start(n, rows), ls), job, CLAIMABLE)
    requires var s := Run(Start(n, rows), ls); w < |s.workers| && s.workers[w] == Publish(job)
    requires Untouched(Do(Run(Start(n, rows), ls), PublishReady(w, true)), ls')
    ensures var t := Run(Do(Run(Start(n, rows), ls), PublishReady(w, true)), ls');
      Reads(t, job, READY) && job !in t.stored && NotInFlight(t, job)
  {
    hide Run, CanRun;
    var s := Run(Start(n, rows), ls);
    StartInv(n, rows);
    ReachableInv(Start(n, rows), ls);
    QueuedIsSettled(s, job);
    PublishSettles(s, job, w);
    RunKeepsSettled(Do(s, PublishReady(w, true)), ls', job, READY);
  }

  lemma PublishSettles(s: State, job: nat, w: nat)
    requires Inv(s) && Reads(s, job, CLAIMABLE) && NotInFlight(s, job) && job !in s.stored
    requires w < |s.workers| && s.workers[w] == Publish(job)
    ensures Inv(Do(s, PublishReady(w, true))) && Settled(Do(s, PublishReady(w, true)), job, READY)
  {
    var l, s' := PublishReady(w, true), Do(s, PublishReady(w, true));
    StepKeepsInv(s, l);
    forall pl ensures TokenAt(s', pl) != Of(job) {
      Traced(s, l, pl);
      assert TokenAt(s, Origin(s, l, pl)) != Of(job);
    }
  }

  // ---- setting a row back by hand -------------------------------------------

  /** The operator's action: the job's row is set to queued, whatever it read. */
  function Reset(s: State, job: nat): State {
    s.(rows := s.rows[job := CLAIMABLE])
  }

  /** However the program goes on, no job is stored twice. */
  ghost predicate StoresOnce(s: State) {
    forall ls | Untouched(s, ls) :: Distinct(Run(s, ls).stored)
  }

  /** Restart, claim the job, and merge it. */
  function Redo(job: nat): seq<Label> {
    [Restart] + ([Claim(job, true)] + ([BackfillParsed] + ([Lock(Backfill)] + MERGE_RUN)))
  }

  const MERGE_RUN: seq<Label> := [MarkMerging(Backfill, true)] + ([MergeAndUpsert(Backfill, true)] + [])

  lemma MergeRunLeads(s: State, job: nat)
    requires job in s.rows && s.backfill == Locked(job)
    ensures Leads(s, MERGE_RUN, s.(rows := s.rows[job := MERGING], backfill := Stored(job), stored := s.stored + [job]))
  {
    hide Leads;
    var s1 := s.(rows := s.rows[job := MERGING], backfill := Announced(job));
    var s2 := s1.(backfill := Stored(job), stored := s.stored + [job]);
    Stop(s2);
    Before(s1, MergeAndUpsert(Backfill, true), [], s2);
    assert Do(s, MarkMerging(Backfill, true)) == s1;
    Before(s, MarkMerging(Backfill, true), [MergeAndUpsert(Backfill, true)] + [], s2);
  }

  /** A claimed job is parsed and merged. */
  lemma ClaimedLeads(s: State, job: nat)
    requires job in s.rows && s.backfill == Claimed(job) && s.mutex == Free
    ensures Leads(s, [BackfillParsed] + ([Lock(Backfill)] + MERGE_RUN),
                  s.(rows := s.rows[job := MERGING], backfill := Stored(job), stored := s.stored + [job],
                     mutex := HeldBy(Backfill)))
  {
    hide Leads;
    var s1 := s.(backfill := Waiting(job));
    var s2 := s.(backfill := Locked(job), mutex := HeldBy(Backfill));
    var t := s.(rows := s.rows[job := MERGING], backfill := Stored(job), stored := s.stored + [job],
                mutex := HeldBy(Backfill));
    MergeRunLeads(s2, job);
    assert Do(s1, Lock(Backfill)) == s2;
    Before(s1, Lock(Backfill), MERGE_RUN, t);
    Before(s, BackfillParsed, [Lock(Backfill)] + MERGE_RUN, t);
  }

  /** From any state with a claimable row, the job can be stored. */
  lemma RedoLeads(s: State, job: nat) returns (t: State)
    requires Reads(s, job, CLAIMABLE)
    ensures Leads(s, Redo(job), t) && t.stored == s.stored + [job]
  {
    hide Leads;
    var r := Do(s, Restart);
    var r1 := r.(rows := r.rows[job := PARSING], backfill := Claimed(job));
    t := r1.(rows := r1.rows[job := MERGING], backfill := Stored(job), stored := r1.stored + [job],
             mutex := HeldBy(Backfill));
    var rest := [BackfillParsed] + ([Lock(Backfill)] + MERGE_RUN);
    ClaimedLeads(r1, job);
    assert Do(r, Claim(job, true)) == r1;
    Before(r, Claim(job, true), rest, t);
    Before(s, Restart, [Claim(job, true)] + rest, t);
  }

  /** A careful reset keeps everything that holds of the program's own runs, so resets may be repeated. */
  lemma ResetKeepsInv(s: State, job: nat)
    requires Inv(s) && job in s.rows && NotInFlight(s, job) && job !in s.stored
    ensures Inv(Reset(s, job))
  {
    var s' := Reset(s, job);
    assert forall pl :: TokenAt(s', pl) == TokenAt(s, pl);
    forall pl ensures Exclusive(s', TokenAt(s', pl)) {
      assert Exclusive(s, TokenAt(s, pl));
    }
    assert OnePlace(s');
  }

  /**
   Resetting the row of a job that is not in flight keeps every job stored at
   most once exactly when the job is not stored.
   */
  lemma {:induction false} ResetSafeIff(n: nat, rows: Rows, ls: seq<Label>, job: nat)
    requires Untouched(Start(n, rows), ls)
    requires var s := Run(Start(n, rows), ls); job in s.rows && NotInFlight(s, job)
    ensures var s := Run(Start(n, rows), ls); StoresOnce(Reset(s, job)) <==> job !in s.stored
  {
    hide Run, CanRun, Enabled, Do, NotInFlight;
    var s := Run(Start(n, rows), ls);
    StartInv(n, rows);
    ReachableInv(Start(n, rows), ls);
    if job !in s.stored {
      ResetKeepsInv(s, job);
      forall ls' | Untouched(Reset(s, job), ls') ensures Distinct(Run(Reset(s, job), ls').stored) {
        ReachableInv(Reset(s, job), ls');
      }
    } else {
      var t := RedoLeads(Reset(s, job), job);
      RedoUntouched(job);
      assert !Distinct(t.stored) by {
        var i :| 0 <= i < |s.stored| && s.stored[i] == job;
        assert t.stored[i] == t.stored[|s.stored|];
      }
    }
  }

  lemma RedoUntouched(job: nat)
    ensures forall l <- Redo(job) :: Captured(l)
  {
  }

  // ---- how it comes about, from the start -----------------------------------

  const STOPPED_RUN: seq<Label> :=
    [Receive] + ([Lock(Writer)] + ([MarkMerging(Writer, true)] + ([MergeAndUpsert(Writer, true)] + ([Restart] + []))))

  /** From a result in the channel to a restart right after the upsert. */
  lemma StopLeads()
    ensures Leads(Quiet(Publish(1), map[1 := PARSING], []).(results := [1]), STOPPED_RUN,
                  Quiet(Idle, map[1 := MERGING], [1]))
  {
    hide Leads;
    var s3 := Announcing(1, Publish(1), map[1 := MERGING], []);
    var s4 := s3.(writer := Stored(1), stored := [1]);
    var s5 := Quiet(Idle, map[1 := MERGING], [1]);
    Stop(s5);
    assert Do(s4, Restart) == s5;
    Before(s4, Restart, [], s5);
    assert Do(s3, MergeAndUpsert(Writer, true)) == s4;
    Before(s3, MergeAndUpsert(Writer, true), [Restart] + [], s5);
    assert map[1 := PARSING][1 := MERGING] == map[1 := MERGING];
    HandOver(1, Publish(1), map[1 := PARSING], [], [MergeAndUpsert(Writer, true)] + ([Restart] + []), s5);
  }

  /** One file goes from the start to the result channel. */
  lemma FirstFile()
    ensures Leads(Start(1, map[]), WorkerRun(0, 1), Quiet(Publish(1), map[1 := PARSING], []).(results := [1]))
  {
    hide Leads, Do, Enabled, WorkerRun;
    assert Start(1, map[]) == Quiet(Idle, map[], []);
    assert map[][1 := PARSING] == map[1 := PARSING];
    WorkerLeads(0, 1, map[], []);
  }

  /** A file goes through until a restart right after its upsert: the job is stored, and its row reads merging. */
  lemma StoppedWhileMerging()
    ensures Leads(Start(1, map[]), WorkerRun(0, 1) + STOPPED_RUN, Quiet(Idle, map[1 := MERGING], [1]))
  {
    hide Leads, Do, Enabled, WorkerRun;
    FirstFile();
    StopLeads();
    InTurn(Start(1, map[]), WorkerRun(0, 1), STOPPED_RUN,
           Quiet(Publish(1), map[1 := PARSING], []).(results := [1]), Quiet(Idle, map[1 := MERGING], [1]));
  }

  /** From the start: that stuck row, set back by hand as the operating notes advise, stores the job a second time. */
  lemma ResetStoresTwice() returns (s: State, t: State)
    ensures Leads(Start(1, map[]), WorkerRun(0, 1) + STOPPED_RUN, s) && s.stored == [1] && Reads(s, 1, MERGING)
    ensures Leads(Reset(s, 1), Redo(1), t) && t.stored == [1, 1]
  {
    hide Leads;
    StoppedWhileMerging();
    s := Quiet(Idle, map[1 := MERGING], [1]);
    t := RedoLeads(Reset(s, 1), 1);
  }

  const REFUSED_RUN: seq<Label> :=
    [Receive] + ([Lock(Writer)] + ([MarkMerging(Writer, true)]
        + ([MergeAndUpsert(Writer, false)] + ([Requeue(Writer, true)] + []))))

  /** From the start: a refused job is put back to queued while its worker still stands before the late write. */
  lemma RetryLost() returns (s: State)
    ensures Leads(Start(1, map[]), WorkerRun(0, 1) + REFUSED_RUN, s)
    ensures Reads(s, 1, CLAIMABLE) && s.refused == [1] && s.workers == [Publish(1)]
  {
    hide Leads, Do, Enabled, WorkerRun;
    FirstFile();
    s := RefusalLeads();
    InTurn(Start(1, map[]), WorkerRun(0, 1), REFUSED_RUN, Quiet(Publish(1), map[1 := PARSING], []).(results := [1]), s);
  }

  lemma RefusalLeads() returns (s: State)
    ensures Leads(Quiet(Publish(1), map[1 := PARSING], []).(results := [1]), REFUSED_RUN, s)
    ensures Reads(s, 1, CLAIMABLE) && s.refused == [1] && s.workers == [Publish(1)]
  {
    hide Leads;
    var s3 := Announcing(1, Publish(1), map[1 := MERGING], []);
    var s4 := s3.(writer := Refused(1), refused := [1]);
    s := s4.(writer := Unlocking, rows := map[1 := CLAIMABLE]);
    Stop(s);
    assert map[1 := MERGING][1 := CLAIMABLE] == map[1 := CLAIMABLE];
    assert Do(s4, Requeue(Writer, true)) == s;
    Before(s4, Requeue(Writer, true), [], s);
    assert Do(s3, MergeAndUpsert(Writer, false)) == s4;
    Before(s3, MergeAndUpsert(Writer, false), [Requeue(Writer, true)] + [], s);
    assert map[1 := PARSING][1 := MERGING] == map[1 := MERGING];
    HandOver(1, Publish(1), map[1 := PARSING], [], [MergeAndUpsert(Writer, false)] + ([Requeue(Writer, true)] + []), s);
  }
}
