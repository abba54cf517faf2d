/**
 What the status columns of a job row say.  Every row is the one the table held
 at the start or the one left by the last status write of its job, with the two
 columns written out here for each write; so `merged` means stored, and `failed`
 means that a parse of the job failed.  Also, when a job's flight begins and ends.
 */
module JobStatus {
  import opened Lists
  import opened Pipeline
  import opened JobRows

  /** The action writes these two columns into the row of the job. */
  predicate Writes(s: State, l: Label, job: nat, status: Stage, analysis: Stage) {
    match l
    case Insert(_, id, inserted, _) => inserted && id == job && status == Parsing && analysis == Parsing
    case Adopt(w, written) =>
      && written && w < |s.workers| && s.workers[w] == Taken(job) && job in s.rows
      && status == Parsing && analysis == Parsing
    case ParseError(w, written) =>
      && written && w < |s.workers| && s.workers[w] == Parse(job) && job in s.rows
      && status == Failed && analysis == Failed
    case PublishReady(w, written) =>
      && written && w < |s.workers| && s.workers[w] == Publish(job) && job in s.rows
      && status == Queued && analysis == ParsedReady
    case Claim(id, _) => id == job && status == Parsing && analysis == Parsing
    case BackfillError(written) =>
      written && s.backfill == Claimed(job) && job in s.rows && status == Failed && analysis == Failed
    case MarkMerging(p, written) =>
      written && s.At(p) == Locked(job) && job in s.rows && status == Merging && analysis == Merging
    case Requeue(p, written) =>
      written && s.At(p) == Refused(job) && job in s.rows && status == Queued && analysis == Queued
    case MarkMerged(p, written) =>
      written && s.At(p) == Stored(job) && job in s.rows && status == Merged && analysis == Merged
    case _ => false
  }

  ghost predicate Rewrites(s: State, l: Label, job: nat) {
    exists status, analysis :: Writes(s, l, job, status, analysis)
  }

  /** A row changes only by a write, and then reads what was written. */
  lemma StepWrites(s: State, l: Label, job: nat, status: Stage, analysis: Stage)
    requires Enabled(s, l)
    ensures Writes(s, l, job, status, analysis) ==>
      job in Do(s, l).rows && Do(s, l).rows[job].status == status && Do(s, l).rows[job].analysis == analysis
    ensures job in s.rows ==> job in Do(s, l).rows
    ensures job in Do(s, l).rows && (job !in s.rows || Do(s, l).rows[job] != s.rows[job]) ==>
      Writes(s, l, job, Do(s, l).rows[job].status, Do(s, l).rows[job].analysis)
  {
  }

  /** The write of `ls[k]` is the last one to the row of the job. */
  ghost predicate LastWrite(s: State, ls: seq<Label>, k: nat, job: nat, row: JobRow) {
    && k < |ls| && CanRun(s, ls[..k]) && Writes(Run(s, ls[..k]), ls[k], job, row.status, row.analysis)
    && forall m | k < m < |ls| :: CanRun(s, ls[..m]) && !Rewrites(Run(s, ls[..m]), ls[m], job)
  }

  ghost predicate NoWrite(s: State, ls: seq<Label>, job: nat) {
    forall m: nat | m < |ls| :: CanRun(s, ls[..m]) && !Rewrites(Run(s, ls[..m]), ls[m], job)
  }

  lemma {:induction false} PrefixRuns(s: State, ls: seq<Label>, m: nat)
    requires CanRun(s, ls) && m <= |ls|
    ensures CanRun(s, ls[..m])
    ensures m > 0 ==> CanRun(Do(s, ls[0]), ls[1..][..m - 1]) && Run(s, ls[..m]) == Run(Do(s, ls[0]), ls[1..][..m - 1])
    decreases ls
  {
    hide Enabled, Do;
    if m > 0 {
      assert ls[..m][1..] == ls[1..][..m - 1];
      PrefixRuns(Do(s, ls[0]), ls[1..], m - 1);
    }
  }

  /** Every row is the one of the start, or what the last status write of its job wrote. */
  lemma {:induction false} RowTrace(s: State, ls: seq<Label>, job: nat)
    requires CanRun(s, ls) && job in Run(s, ls).rows
    ensures var row := Run(s, ls).rows[job];
      || (job in s.rows && s.rows[job] == row && NoWrite(s, ls, job))
      || exists k: nat :: LastWrite(s, ls, k, job, row)
    decreases ls
  {
    hide Enabled, Do, Writes;
    if ls != [] {
      var t, row := Do(s, ls[0]), Run(s, ls).rows[job];
      RowTrace(t, ls[1..], job);
      forall m: nat | m <= |ls| {
        PrefixRuns(s, ls, m);
      }
      if k: nat :| LastWrite(t, ls[1..], k, job, row) {
        assert LastWrite(s, ls, k + 1, job, row) by {
          forall m | k + 1 < m < |ls| ensures !Rewrites(Run(s, ls[..m]), ls[m], job) {
            assert ls[1..][m - 1] == ls[m];
          }
        }
      } else {
        assert NoWrite(t, ls[1..], job);
        forall m | 0 < m < |ls| ensures !Rewrites(Run(s, ls[..m]), ls[m], job) {
          assert ls[1..][m - 1] == ls[m];
        }
        StepWrites(s, ls[0], job, row.status, row.analysis);
        if status, analysis :| Writes(s, ls[0], job, status, analysis) {
          StepWrites(s, ls[0], job, status, analysis);
          assert LastWrite(s, ls, 0, job, row);
        }
      }
    }
  }

  lemma {:induction false} StoredStays(s: State, ls: seq<Label>, k: nat, job: nat)
    requires CanRun(s, ls) && k <= |ls| && CanRun(s, ls[..k]) && job in Run(s, ls[..k]).stored
    ensures job in Run(s, ls).stored
    decreases ls
  {
    hide Enabled, Do;
    if k == 0 {
      StoredKept(s, ls, job);
    } else {
      PrefixRuns(s, ls, k);
      StoredStays(Do(s, ls[0]), ls[1..], k - 1, job);
    }
  }

  lemma {:induction false} StoredKept(s: State, ls: seq<Label>, job: nat)
    requires CanRun(s, ls) && job in s.stored
    ensures job in Run(s, ls).stored
    decreases ls
  {
    hide Enabled, Do;
    if ls != [] {
      StoredGrows(s, ls[0]);
      StoredKept(Do(s, ls[0]), ls[1..], job);
    }
  }

  lemma {:induction false} PrefixUntouched(s: State, ls: seq<Label>, k: nat)
    requires Inv(s) && Untouched(s, ls) && k <= |ls|
    ensures Untouched(s, ls[..k]) && Inv(Run(s, ls[..k]))
  {
    hide Enabled, Do, Inv, Captured;
    PrefixRuns(s, ls, k);
    assert forall l <- ls[..k] :: l in ls;
    ReachableInv(s, ls[..k]);
  }

  /** A row that says merged, in either column, is of a stored job, or the table held it so from the start. */
  lemma {:induction false} MergedMeansStored(n: nat, rows: Rows, ls: seq<Label>, job: nat)
    requires Untouched(Start(n, rows), ls) && job in Run(Start(n, rows), ls).rows
    requires var row := Run(Start(n, rows), ls).rows[job]; row.status == Merged || row.analysis == Merged
    ensures job in Run(Start(n, rows), ls).stored
         || (job in rows && rows[job] == Run(Start(n, rows), ls).rows[job])
  {
    hide Enabled, Do, Inv, Captured;
    var s := Start(n, rows);
    StartInv(n, rows);
    RowTrace(s, ls, job);
    if k: nat :| LastWrite(s, ls, k, job, Run(s, ls).rows[job]) {
      PrefixUntouched(s, ls, k);
      RecordedAt(Run(s, ls[..k]), ls[k], job);
      StoredStays(s, ls, k, job);
    }
  }

  lemma RecordedAt(s: State, l: Label, job: nat)
    requires Inv(s) && l.MarkMerged? && s.At(l.p) == Stored(job)
    ensures job in s.stored
  {
  }

  /** The worker or the backfill fails to parse the job's file, and says so in the row. */
  predicate FailsToParse(s: State, l: Label, job: nat) {
    || (l.ParseError? && l.written && l.w < |s.workers| && s.workers[l.w] == Parse(job))
    || (l.BackfillError? && l.written && s.backfill == Claimed(job))
  }

  /**
   A row says failed, in either column, only after a failed parse, and then in
   both; the job had not been stored then.
   */
  lemma {:induction false} FailedMeansParse(n: nat, rows: Rows, ls: seq<Label>, job: nat)
    requires Untouched(Start(n, rows), ls) && job in Run(Start(n, rows), ls).rows
    requires var row := Run(Start(n, rows), ls).rows[job]; row.status == Failed || row.analysis == Failed
    ensures var row := Run(Start(n, rows), ls).rows[job];
      || (job in rows && rows[job] == row)
      || (row == JobRow(Failed, Failed) && exists k: nat ::
            && k < |ls| && CanRun(Start(n, rows), ls[..k]) && FailsToParse(Run(Start(n, rows), ls[..k]), ls[k], job)
            && job !in Run(Start(n, rows), ls[..k]).stored)
  {
    hide Enabled, Do, Inv, Captured;
    var s := Start(n, rows);
    StartInv(n, rows);
    RowTrace(s, ls, job);
    if k: nat :| LastWrite(s, ls, k, job, Run(s, ls).rows[job]) {
      PrefixUntouched(s, ls, k);
      ParsingNotStored(Run(s, ls[..k]), ls[k], job);
    }
  }

  lemma ParsingNotStored(s: State, l: Label, job: nat)
    requires Inv(s) && FailsToParse(s, l, job)
    ensures job !in s.stored
  {
    assert Exclusive(s, TokenAt(s, if l.ParseError? then AtWorker(l.w) else AtProc(Backfill)));
  }

  // ---- when a flight begins and ends ----------------------------------------

  predicate Begins(l: Label, job: nat) {
    (l.Insert? && l.id == job && l.reported) || (l.Claim? && l.id == job && l.reported)
  }

  /**
   The parse fails, the worker is cancelled, the upsert succeeds, a refused
   job is put back, or the process restarts.
   */
  predicate Ends(s: State, l: Label, job: nat) {
    match l
    case ParseError(w, _) => w < |s.workers| && s.workers[w] == Parse(job)
    case Cancel(w) => w < |s.workers| && s.workers[w] == Send(job)
    case BackfillError(_) => s.backfill == Claimed(job)
    case MergeAndUpsert(p, ok) => ok && s.At(p) == Announced(job)
    case Requeue(p, _) => s.At(p) == Refused(job)
    case Restart => true
    case _ => false
  }

  /** Where the action that ends a flight finds the job. */
  function EndPlace(l: Label): Place {
    match l
    case ParseError(w, _) => AtWorker(w)
    case Cancel(w) => AtWorker(w)
    case MergeAndUpsert(p, _) => AtProc(p)
    case Requeue(p, _) => AtProc(p)
    case _ => AtProc(Backfill)
  }

  /** Where the token at a place is after the action. */
  function Destination(s: State, l: Label, pl: Place): Place {
    if l.SendResult? && pl == AtWorker(l.w) then InChannel(|s.results|)
    else if l.Receive? && pl == InChannel(0) then AtProc(Writer)
    else if l.Receive? && pl.InChannel? then InChannel(pl.i - 1)
    else pl
  }

  lemma WorkerGoesOn(s: State, l: Label, w: nat, job: nat)
    requires Enabled(s, l) && TokenAt(s, AtWorker(w)) == Of(job) && !Ends(s, l, job)
    ensures TokenAt(Do(s, l), Destination(s, l, AtWorker(w))) == Of(job)
  {
  }

  lemma ChannelGoesOn(s: State, l: Label, i: nat, job: nat)
    requires Enabled(s, l) && TokenAt(s, InChannel(i)) == Of(job) && !Ends(s, l, job)
    ensures TokenAt(Do(s, l), Destination(s, l, InChannel(i))) == Of(job)
  {
  }

  lemma ProcGoesOn(s: State, l: Label, p: Proc, job: nat)
    requires Enabled(s, l) && TokenAt(s, AtProc(p)) == Of(job) && !Ends(s, l, job)
    ensures TokenAt(Do(s, l), Destination(s, l, AtProc(p))) == Of(job)
  {
  }

  lemma FlightGoesOn(s: State, l: Label, pl: Place, job: nat)
    requires Enabled(s, l) && TokenAt(s, pl) == Of(job) && !Ends(s, l, job)
    ensures TokenAt(Do(s, l), Destination(s, l, pl)) == Of(job)
  {
    match pl
    case AtWorker(w) => WorkerGoesOn(s, l, w, job);
    case InChannel(i) => ChannelGoesOn(s, l, i, job);
    case AtProc(p) => ProcGoesOn(s, l, p, job);
  }

  lemma EndsFlight(s: State, l: Label, job: nat)
    requires Enabled(s, l) && Ends(s, l, job) && !l.Restart?
    ensures TokenAt(s, EndPlace(l)) == Of(job) && TokenAt(Do(s, l), EndPlace(l)) == NoJob
  {
  }

  lemma BeginsFlight(s: State, l: Label, job: nat)
    requires Enabled(s, l) && Begins(l, job)
    ensures TokenAt(Do(s, l), BirthPlace(l)) == Of(job)
  {
  }

  lemma RestartGrounds(s: State, pl: Place)
    ensures TokenAt(Do(s, Restart), pl) == NoJob
  {
  }

  /** After the action that ends a job's flight nobody holds the job. */
  lemma EndedFlight(s: State, l: Label, job: nat, pl: Place)
    requires Inv(s) && Enabled(s, l) && Captured(l) && Ends(s, l, job)
    ensures TokenAt(Do(s, l), pl) != Of(job)
  {
    hide Do, Enabled, TokenAt, Ends;
    if l.Restart? {
      RestartGrounds(s, pl);
    } else if TokenAt(Do(s, l), pl) == Of(job) {
      EndsFlight(s, l, job);
      EndMoves(s, l, job);
      Traced(s, l, pl);
    }
  }

  lemma EndMoves(s: State, l: Label, job: nat)
    requires Ends(s, l, job)
    ensures Born(l) == NoJob && !l.SendResult? && !l.Receive?
  {
  }

  /**
   In every reachable state a job is in flight after an action exactly when the
   action begins its flight, or it was in flight and the action does not end it.
   */
  lemma {:induction false} FlightStep(n: nat, rows: Rows, ls: seq<Label>, l: Label, job: nat)
    requires Untouched(Start(n, rows), ls) && Enabled(Run(Start(n, rows), ls), l) && Captured(l)
    ensures var s := Run(Start(n, rows), ls);
      !NotInFlight(Do(s, l), job) <==> Begins(l, job) || (!NotInFlight(s, job) && !Ends(s, l, job))
  {
    hide Do, Enabled, TokenAt, Inv;
    var s := Run(Start(n, rows), ls);
    StartInv(n, rows);
    ReachableInv(Start(n, rows), ls);
    if Ends(s, l, job) {
      EndMoves(s, l, job);
      forall pl ensures TokenAt(Do(s, l), pl) != Of(job) {
        EndedFlight(s, l, job, pl);
      }
    } else {
      InvUntagged(s);
      if !NotInFlight(s, job) {
        var pl :| TokenAt(s, pl) == Of(job);
        FlightGoesOn(s, l, pl, job);
      }
      if Begins(l, job) {
        BeginsFlight(s, l, job);
      }
      forall pl | TokenAt(Do(s, l), pl) == Of(job) ensures Begins(l, job) || !NotInFlight(s, job) {
        Traced(s, l, pl);
      }
    }
  }

  lemma InvUntagged(s: State)
    requires Inv(s)
    ensures Untagged(s)
  {
  }

  // ---- the channels ----------------------------------------------------------

  lemma ChannelStep(s: State, l: Label)
    requires Enabled(s, l) && |s.tasks| <= 1000 && |s.results| <= 500
    ensures |Do(s, l).tasks| <= 1000 && |Do(s, l).results| <= 500
    ensures l.Enqueue? ==> |s.tasks| < 1000
    ensures l.SendResult? ==> |s.results| < 500
  {
  }

  lemma {:induction false} ChannelsStay(s: State, ls: seq<Label>)
    requires CanRun(s, ls) && |s.tasks| <= 1000 && |s.results| <= 500
    ensures |Run(s, ls).tasks| <= 1000 && |Run(s, ls).results| <= 500
    decreases ls
  {
    hide Do, Enabled;
    if ls != [] {
      ChannelStep(s, ls[0]);
      ChannelsStay(Do(s, ls[0]), ls[1..]);
    }
  }

  /** The channels hold at most 1000 tasks and 500 results, and a send waits exactly when its channel is full. */
  lemma {:induction false} ChannelsBounded(n: nat, rows: Rows, ls: seq<Label>, w: nat)
    requires CanRun(Start(n, rows), ls)
    ensures var s := Run(Start(n, rows), ls);
      && |s.tasks| <= 1000 && |s.results| <= 500
      && (Enabled(s, Enqueue(0)) <==> |s.tasks| != 1000)
      && (w < |s.workers| && s.workers[w].Send? ==> (Enabled(s, SendResult(w)) <==> |s.results| != 500))
  {
    ChannelsStay(Start(n, rows), ls);
  }
}
