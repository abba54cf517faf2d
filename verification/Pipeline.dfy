/**
 The job pipeline: parser workers, one writer and one backfill loop share the
 job rows, a result channel and a write mutex.  A label names one atomic action
 of one of them; any interleaving is a list of labels.  Every status write may
 fail, since its error is ignored, and the process may restart at any moment.
 */
module Pipeline {
  import opened Lists

  datatype Stage = Queued | Parsing | ParsedReady | Merging | Merged | Failed

  /** The two status columns of a `capture_jobs` row. */
  datatype JobRow = JobRow(status: Stage, analysis: Stage)

  type Rows = map<nat, JobRow>

  /** Where one worker is in `handleTask`. */
  datatype WorkerAt = Idle | Taken(task: nat) | Parse(job: nat) | Send(job: nat) | Publish(job: nat)

  /** Where the writer or the backfill loop is; `Claimed` is the backfill's own parsing step. */
  datatype ProcAt =
    Ready | Claimed(job: nat) | Waiting(job: nat)
  | Locked(job: nat) | Announced(job: nat) | Stored(job: nat) | Refused(job: nat) | Unlocking

  datatype Proc = Writer | Backfill

  datatype Owner = Free | HeldBy(proc: Proc)

  /** `stored` and `refused` list the jobs of the merge runs whose upsert succeeded or failed, in order. */
  datatype State = State(
    tasks: seq<nat>, workers: seq<WorkerAt>, results: seq<nat>, writer: ProcAt, backfill: ProcAt, mutex: Owner,
    rows: Rows, stored: seq<nat>, refused: seq<nat>)
  {
    function At(p: Proc): ProcAt {
      if p.Writer? then writer else backfill
    }

    function Move(p: Proc, at: ProcAt): State {
      if p.Writer? then this.(writer := at) else this.(backfill := at)
    }

    function Go(w: nat, at: WorkerAt): State
      requires w < |workers|
    {
      this.(workers := workers[w := at])
    }

    /** A status write: it may be lost, and it changes nothing when there is no such row. */
    function Write(written: bool, job: nat, row: JobRow): State {
      if written && job in rows then this.(rows := rows[job := row]) else this
    }
  }

  datatype Label =
    Enqueue(job: nat)
  | Take(w: nat)
  | Insert(w: nat, id: nat, inserted: bool, reported: bool)
  | Adopt(w: nat, written: bool)
  | ParseOk(w: nat)
  | ParseError(w: nat, written: bool)
  | SendResult(w: nat)
  | Cancel(w: nat)
  | PublishReady(w: nat, written: bool)
  | Receive
  | Claim(id: nat, reported: bool)
  | BackfillError(written: bool)
  | BackfillParsed
  | Lock(p: Proc)
  | MarkMerging(p: Proc, written: bool)
  | MergeAndUpsert(p: Proc, ok: bool)
  | Requeue(p: Proc, written: bool)
  | MarkMerged(p: Proc, written: bool)
  | Unlock(p: Proc)
  | Restart

  const TASK_CAPACITY: nat := 1000
  const RESULT_CAPACITY: nat := 500

  const CLAIMABLE: JobRow := JobRow(Queued, Queued)
  const PARSING: JobRow := JobRow(Parsing, Parsing)
  const FAILED: JobRow := JobRow(Failed, Failed)
  const READY: JobRow := JobRow(Queued, ParsedReady)
  const MERGING: JobRow := JobRow(Merging, Merging)
  const MERGED: JobRow := JobRow(Merged, Merged)

  predicate Enabled(s: State, l: Label) {
    match l
    case Enqueue(_) => |s.tasks| < TASK_CAPACITY
    case Take(w) => w < |s.workers| && s.workers[w].Idle? && s.tasks != []
    case Insert(w, id, inserted, reported) =>
      w < |s.workers| && s.workers[w] == Taken(0) && id !in s.rows && (reported ==> inserted)
    case Adopt(w, _) => w < |s.workers| && s.workers[w].Taken? && s.workers[w].task != 0
    case ParseOk(w) => w < |s.workers| && s.workers[w].Parse?
    case ParseError(w, _) => w < |s.workers| && s.workers[w].Parse?
    case SendResult(w) => w < |s.workers| && s.workers[w].Send? && |s.results| < RESULT_CAPACITY
    case Cancel(w) => w < |s.workers| && s.workers[w].Send?
    case PublishReady(w, _) => w < |s.workers| && s.workers[w].Publish?
    case Receive => s.At(Writer).Ready? && s.results != []
    case Claim(id, _) => s.At(Backfill).Ready? && id in s.rows && s.rows[id] == CLAIMABLE
    case BackfillError(_) => s.At(Backfill).Claimed?
    case BackfillParsed => s.At(Backfill).Claimed?
    case Lock(p) => s.At(p).Waiting? && s.mutex == Free
    case MarkMerging(p, _) => s.At(p).Locked?
    case MergeAndUpsert(p, _) => s.At(p).Announced?
    case Requeue(p, _) => s.At(p).Refused?
    case MarkMerged(p, _) => s.At(p).Stored?
    case Unlock(p) => s.At(p).Unlocking?
    case Restart => true
  }

  function Do(s: State, l: Label): State
    requires Enabled(s, l)
  {
    match l
    case Enqueue(job) => s.(tasks := s.tasks + [job])
    case Take(w) => s.(tasks := s.tasks[1..]).Go(w, Taken(s.tasks[0]))
    case Insert(w, id, inserted, reported) =>
      var s' := if inserted then s.(rows := s.rows[id := PARSING]) else s;
      s'.Go(w, if reported then Parse(id) else Idle)
    case Adopt(w, written) =>
      s.Write(written, s.workers[w].task, PARSING).Go(w, Parse(s.workers[w].task))
    case ParseOk(w) => s.Go(w, Send(s.workers[w].job))
    case ParseError(w, written) => s.Write(written, s.workers[w].job, FAILED).Go(w, Idle)
    case SendResult(w) => s.(results := s.results + [s.workers[w].job]).Go(w, Publish(s.workers[w].job))
    case Cancel(w) => s.Go(w, Idle)
    case PublishReady(w, written) => s.Write(written, s.workers[w].job, READY).Go(w, Idle)
    case Receive => s.(results := s.results[1..]).Move(Writer, Waiting(s.results[0]))
    case Claim(id, reported) => s.Write(true, id, PARSING).Move(Backfill, if reported then Claimed(id) else Ready)
    case BackfillError(written) => s.Write(written, s.At(Backfill).job, FAILED).Move(Backfill, Ready)
    case BackfillParsed => s.Move(Backfill, Waiting(s.At(Backfill).job))
    case Lock(p) => s.(mutex := HeldBy(p)).Move(p, Locked(s.At(p).job))
    case MarkMerging(p, written) => s.Write(written, s.At(p).job, MERGING).Move(p, Announced(s.At(p).job))
    case MergeAndUpsert(p, ok) =>
      var job := s.At(p).job;
      if ok then s.(stored := s.stored + [job]).Move(p, Stored(job))
      else s.(refused := s.refused + [job]).Move(p, Refused(job))
    case Requeue(p, written) => s.Write(written, s.At(p).job, CLAIMABLE).Move(p, Unlocking)
    case MarkMerged(p, written) => s.Write(written, s.At(p).job, MERGED).Move(p, Unlocking)
    case Unlock(p) => s.(mutex := Free).Move(p, Ready)
    case Restart =>
      s.(tasks := [], workers := seq(|s.workers|, _ => Idle), results := [],
         writer := Ready, backfill := Ready, mutex := Free)
  }

  /** The process starts with `n` idle workers over whatever rows the table holds. */
  function Start(n: nat, rows: Rows): State {
    State([], seq(n, _ => Idle), [], Ready, Ready, Free, rows, [], [])
  }

  predicate CanRun(s: State, ls: seq<Label>)
    decreases ls
  {
    ls == [] || (Enabled(s, ls[0]) && CanRun(Do(s, ls[0]), ls[1..]))
  }

  function Run(s: State, ls: seq<Label>): State
    requires CanRun(s, ls)
    decreases ls
  {
    if ls == [] then s else Run(Do(s, ls[0]), ls[1..])
  }

  /** The capture daemon sends tasks without a job id. */
  predicate Captured(l: Label) {
    l.Enqueue? ==> l.job == 0
  }

  // ---- who holds a parse result, or the right to make one ------------------

  datatype Place = AtWorker(w: nat) | InChannel(i: nat) | AtProc(p: Proc)

  datatype Token = NoJob | Of(job: nat)

  /** The job whose parse result is being made, carried or merged at a place. */
  function TokenAt(s: State, pl: Place): Token {
    match pl
    case AtWorker(w) =>
      if w < |s.workers| && (s.workers[w].Parse? || s.workers[w].Send?) then Of(s.workers[w].job) else NoJob
    case InChannel(i) => if i < |s.results| then Of(s.results[i]) else NoJob
    case AtProc(p) => ProcToken(s.At(p))
  }

  function ProcToken(at: ProcAt): Token {
    if at.Ready? || at.Stored? || at.Unlocking? then NoJob else Of(at.job)
  }

  /** No two places hold the same job. */
  ghost predicate OnePlace(s: State) {
    forall p, q | TokenAt(s, p) == TokenAt(s, q) != NoJob :: p == q
  }

  /** A job in flight has a row nobody may claim, and has not been stored. */
  predicate Exclusive(s: State, t: Token) {
    t.Of? ==> t.job in s.rows && s.rows[t.job] != CLAIMABLE && t.job !in s.stored
  }

  ghost predicate AllExclusive(s: State) {
    forall pl :: Exclusive(s, TokenAt(s, pl))
  }

  predicate StoredOk(s: State) {
    Distinct(s.stored) && forall id <- s.stored :: id in s.rows && s.rows[id] != CLAIMABLE
  }

  predicate Untagged(s: State) {
    (forall i | 0 <= i < |s.tasks| :: s.tasks[i] == 0)
      && (forall w | 0 <= w < |s.workers| && s.workers[w].Taken? :: s.workers[w].task == 0)
  }

  /** Inside `processResult`, between taking and releasing the mutex. */
  predicate InRun(at: ProcAt) {
    at.Locked? || at.Announced? || at.Stored? || at.Refused? || at.Unlocking?
  }

  predicate MutexOk(s: State) {
    && (InRun(s.At(Writer)) <==> s.mutex == HeldBy(Writer))
    && (InRun(s.At(Backfill)) <==> s.mutex == HeldBy(Backfill))
  }

  /** A merge run past its upsert has recorded its job. */
  predicate Recorded(s: State) {
    (s.writer.Stored? ==> s.writer.job in s.stored) && (s.backfill.Stored? ==> s.backfill.job in s.stored)
  }

  ghost predicate Inv(s: State) {
    OnePlace(s) && AllExclusive(s) && StoredOk(s) && Untagged(s) && MutexOk(s) && Recorded(s)
  }

  /** A run that the program makes on its own: the capture daemon tags no task. */
  predicate Untouched(s: State, ls: seq<Label>) {
    CanRun(s, ls) && forall l <- ls :: Captured(l)
  }

  lemma StartInv(n: nat, rows: Rows)
    ensures Inv(Start(n, rows))
  {
  }

  /** The job an action newly puts in flight. */
  function Born(l: Label): Token {
    match l
    case Insert(w, id, _, reported) => if reported then Of(id) else NoJob
    case Claim(id, reported) => if reported then Of(id) else NoJob
    case _ => NoJob
  }

  function BirthPlace(l: Label): Place {
    if l.Insert? then AtWorker(l.w) else AtProc(Backfill)
  }

  /** Where the token at a place was before the action. */
  function Origin(s: State, l: Label, pl: Place): Place {
    if l.SendResult? && pl == InChannel(|s.results|) then AtWorker(l.w)
    else if l.Receive? && pl == AtProc(Writer) then InChannel(0)
    else if l.Receive? && pl.InChannel? then InChannel(pl.i + 1)
    else pl
  }

  ghost predicate CameFrom(s: State, l: Label, pl: Place)
    requires Enabled(s, l)
  {
    TokenAt(Do(s, l), pl) != NoJob ==>
      TokenAt(Do(s, l), pl) == if Born(l).Of? && pl == BirthPlace(l) then Born(l) else TokenAt(s, Origin(s, l, pl))
  }

  lemma TracedToWorker(s: State, l: Label, w: nat)
    requires Enabled(s, l) && Untagged(s)
    ensures CameFrom(s, l, AtWorker(w))
  {
  }

  lemma TracedToChannel(s: State, l: Label, i: nat)
    requires Enabled(s, l)
    ensures CameFrom(s, l, InChannel(i))
  {
  }

  lemma TracedToProc(s: State, l: Label, p: Proc)
    requires Enabled(s, l)
    ensures CameFrom(s, l, AtProc(p))
  {
  }

  /** After any action, a token is newly born or stood at its origin before. */
  lemma Traced(s: State, l: Label, pl: Place)
    requires Enabled(s, l) && Untagged(s)
    ensures CameFrom(s, l, pl)
  {
    match pl
    case AtWorker(w) => TracedToWorker(s, l, w);
    case InChannel(i) => TracedToChannel(s, l, i);
    case AtProc(p) => TracedToProc(s, l, p);
  }

  lemma BornFresh(s: State, l: Label, pl: Place)
    requires Enabled(s, l) && AllExclusive(s) && Born(l).Of?
    ensures TokenAt(s, pl) != Born(l)
  {
    assert Exclusive(s, TokenAt(s, pl));
  }

  lemma StepKeepsOnePlace(s: State, l: Label)
    requires Inv(s) && Enabled(s, l)
    ensures OnePlace(Do(s, l))
  {
    var s' := Do(s, l);
    forall p, q | TokenAt(s', p) == TokenAt(s', q) != NoJob ensures p == q {
      Traced(s, l, p);
      Traced(s, l, q);
      if Born(l).Of? {
        BornFresh(s, l, Origin(s, l, p));
        BornFresh(s, l, Origin(s, l, q));
      }
    }
  }

  /** The holder of a job alone makes it claimable or stored, and lets go of it by doing so. */
  lemma RowKept(s: State, l: Label, job: nat)
    requires Enabled(s, l) && job in s.rows && s.rows[job] != CLAIMABLE
    ensures job in Do(s, l).rows
    ensures Do(s, l).rows[job] == CLAIMABLE ==> l.Requeue? && TokenAt(s, AtProc(l.p)) == Of(job)
  {
  }

  lemma StoredBy(s: State, l: Label, job: nat)
    requires Enabled(s, l) && job !in s.stored
    ensures job in Do(s, l).stored ==> l.MergeAndUpsert? && l.ok && TokenAt(s, AtProc(l.p)) == Of(job)
  {
  }

  lemma LetGo(s: State, l: Label)
    requires Enabled(s, l) && (l.Requeue? || (l.MergeAndUpsert? && l.ok))
    ensures TokenAt(Do(s, l), AtProc(l.p)) == NoJob
  {
  }

  lemma StepKeepsExclusive(s: State, l: Label)
    requires Inv(s) && Enabled(s, l)
    ensures AllExclusive(Do(s, l))
  {
    var s' := Do(s, l);
    forall pl ensures Exclusive(s', TokenAt(s', pl)) {
      var t := TokenAt(s', pl);
      Traced(s, l, pl);
      if t == NoJob {
      } else if t == Born(l) {
        BornRow(s, l);
      } else {
        assert Exclusive(s, TokenAt(s, Origin(s, l, pl)));
        RowKept(s, l, t.job);
        StoredBy(s, l, t.job);
        if l.Requeue? || (l.MergeAndUpsert? && l.ok) {
          LetGo(s, l);
        }
      }
    }
  }

  lemma BornRow(s: State, l: Label)
    requires StoredOk(s) && Enabled(s, l) && Born(l).Of?
    ensures Exclusive(Do(s, l), Born(l))
  {
  }

  lemma StepKeepsStored(s: State, l: Label)
    requires Inv(s) && Enabled(s, l)
    ensures StoredOk(Do(s, l))
  {
    hide Do, Enabled;
    var s' := Do(s, l);
    StoredGrows(s, l);
    if l.MergeAndUpsert? || l.Requeue? {
      assert Exclusive(s, TokenAt(s, AtProc(l.p)));
    }
    forall id <- s'.stored ensures id in s'.rows && s'.rows[id] != CLAIMABLE {
      RowKept(s, l, id);
    }
  }

  lemma StoredGrows(s: State, l: Label)
    requires Enabled(s, l)
    ensures Do(s, l).stored == s.stored
      || (l.MergeAndUpsert? && TokenAt(s, AtProc(l.p)).Of? && Do(s, l).stored
          == s.stored + [TokenAt(s, AtProc(l.p)).job])
  {
  }

  lemma StepKeepsUntagged(s: State, l: Label)
    requires Untagged(s) && Enabled(s, l) && Captured(l)
    ensures Untagged(Do(s, l))
  {
  }

  lemma StepKeepsMutex(s: State, l: Label)
    requires MutexOk(s) && Enabled(s, l)
    ensures MutexOk(Do(s, l))
  {
  }

  lemma StepKeepsRecorded(s: State, l: Label)
    requires Recorded(s) && Enabled(s, l)
    ensures Recorded(Do(s, l))
  {
  }

  lemma StepKeepsInv(s: State, l: Label)
    requires Inv(s) && Enabled(s, l) && Captured(l)
    ensures Inv(Do(s, l))
  {
    StepKeepsOnePlace(s, l);
    StepKeepsExclusive(s, l);
    StepKeepsStored(s, l);
    StepKeepsUntagged(s, l);
    StepKeepsMutex(s, l);
    StepKeepsRecorded(s, l);
  }

  /** Every interleaving of the workers, the writer and the backfill loop keeps the invariant. */
  lemma {:induction false} ReachableInv(s: State, ls: seq<Label>)
    requires Inv(s) && Untouched(s, ls)
    ensures Inv(Run(s, ls))
    decreases ls
  {
    if ls != [] {
      StepKeepsInv(s, ls[0]);
      ReachableInv(Do(s, ls[0]), ls[1..]);
    }
  }

  /** A job has at most one parse result in flight, and is never in flight again once stored. */
  lemma {:induction false} OneResultInFlight(n: nat, rows: Rows, ls: seq<Label>, p: Place, q: Place)
    requires Untouched(Start(n, rows), ls)
    ensures var s := Run(Start(n, rows), ls);
      && (TokenAt(s, p) == TokenAt(s, q) != NoJob ==> p == q)
      && (TokenAt(s, p).Of? ==> TokenAt(s, p).job !in s.stored)
  {
    StartInv(n, rows);
    ReachableInv(Start(n, rows), ls);
    var s := Run(Start(n, rows), ls);
    assert Exclusive(s, TokenAt(s, p));
  }

  /** A job has at most one merge run whose upsert succeeds, across restarts and lost status writes. */
  lemma {:induction false} StoredAtMostOnce(n: nat, rows: Rows, ls: seq<Label>)
    requires Untouched(Start(n, rows), ls)
    ensures Distinct(Run(Start(n, rows), ls).stored)
  {
    StartInv(n, rows);
    ReachableInv(Start(n, rows), ls);
  }

  /** The writer and the backfill loop are never both between taking and releasing the mutex. */
  lemma {:induction false} MergeRunsExclude(n: nat, rows: Rows, ls: seq<Label>)
    requires Untouched(Start(n, rows), ls)
    ensures var s := Run(Start(n, rows), ls); !(InRun(s.writer) && InRun(s.backfill))
  {
    StartInv(n, rows);
    ReachableInv(Start(n, rows), ls);
  }

  /** Once a job is stored, only two writes still touch its row: a late `parsed_ready`, and the end of its merge run. */
  lemma {:induction false} StoredRowWrites(n: nat, rows: Rows, ls: seq<Label>, l: Label, job: nat)
    requires Untouched(Start(n, rows), ls)
    requires var s := Run(Start(n, rows), ls); job in s.stored && Enabled(s, l) && Captured(l)
    ensures var s := Run(Start(n, rows), ls); var s' := Do(s, l);
      && job in s.rows && job in s'.rows && s'.rows[job] != CLAIMABLE
      && (s'.rows[job] != s.rows[job] ==>
            || (l.PublishReady? && s.workers[l.w] == Publish(job) && s'.rows[job] == READY)
            || (l.MarkMerged? && s.At(l.p) == Stored(job) && s'.rows[job] == MERGED))
  {
    StartInv(n, rows);
    ReachableInv(Start(n, rows), ls);
    var s := Run(Start(n, rows), ls);
    StepKeepsInv(s, l);
    RowWrittenBy(s, l, job);
  }

  lemma RowWrittenBy(s: State, l: Label, job: nat)
    requires Inv(s) && job in s.stored && Enabled(s, l) && Captured(l)
    ensures job in s.rows && job in Do(s, l).rows
    ensures Do(s, l).rows[job] != s.rows[job] ==>
      || (l.PublishReady? && s.workers[l.w] == Publish(job) && Do(s, l).rows[job] == READY)
      || (l.MarkMerged? && s.At(l.p) == Stored(job) && Do(s, l).rows[job] == MERGED)
  {
    match l
    case ParseError(w, _) => assert Exclusive(s, TokenAt(s, AtWorker(w)));
    case BackfillError(_) => assert Exclusive(s, TokenAt(s, AtProc(Backfill)));
    case MarkMerging(p, _) => assert Exclusive(s, TokenAt(s, AtProc(p)));
    case Requeue(p, _) => assert Exclusive(s, TokenAt(s, AtProc(p)));
    case _ =>
  }

  // ---- what does not hold --------------------------------------------------

  ghost predicate Leads(s: State, ls: seq<Label>, t: State) {
    CanRun(s, ls) && Run(s, ls) == t
  }

  lemma Stop(s: State)
    ensures Leads(s, [], s)
  {
  }

  lemma Before(s: State, l: Label, ls: seq<Label>, t: State)
    requires Enabled(s, l) && Leads(Do(s, l), ls, t)
    ensures Leads(s, [l] + ls, t)
  {
    hide Enabled, Do;
    assert ([l] + ls)[1..] == ls;
  }

  lemma {:induction false} InTurn(s: State, a: seq<Label>, b: seq<Label>, t: State, u: State)
    requires Leads(s, a, t) && Leads(t, b, u)
    ensures Leads(s, a + b, u)
    decreases a
  {
    hide Enabled, Do;
    if a == [] {
      assert a + b == b;
    } else {
      InTurn(Do(s, a[0]), a[1..], b, t, u);
      Before(s, a[0], a[1..] + b, u);
      assert a + b == [a[0]] + (a[1..] + b);
    }
  }

  /** A quiet state with one worker: only rows and the list of stored jobs differ. */
  function Quiet(a: WorkerAt, rows: Rows, stored: seq<nat>): State {
    State([], [a], [], Ready, Ready, Free, rows, stored, [])
  }

  function WorkerRun(task: nat, job: nat): seq<Label> {
    [Enqueue(task)] + ([Take(0)] + ([if task == 0 then Insert(0, job, true, true) else Adopt(0, true)]
        + ([ParseOk(0)] + ([SendResult(0)] + []))))
  }

  const WRITER_RUN: seq<Label> :=
    [Receive] + ([Lock(Writer)] + ([MarkMerging(Writer, true)]
        + ([MergeAndUpsert(Writer, true)] + ([MarkMerged(Writer, true)] + ([Unlock(Writer)] + [])))))

  lemma WorkerLeads(task: nat, job: nat, rows: Rows, stored: seq<nat>)
    requires if task == 0 then job !in rows else job == task && job in rows
    ensures Leads(Quiet(Idle, rows, stored), WorkerRun(task, job),
                  Quiet(Publish(job), rows[job := PARSING], stored).(results := [job]))
  {
    hide Leads;
    var s0, rows' := Quiet(Idle, rows, stored), rows[job := PARSING];
    var l := if task == 0 then Insert(0, job, true, true) else Adopt(0, true);
    var s1 := s0.(tasks := [task]);
    var s2 := Quiet(Taken(task), rows, stored);
    var s3 := Quiet(Parse(job), rows', stored);
    var s4 := Quiet(Send(job), rows', stored);
    var s5 := Quiet(Publish(job), rows', stored).(results := [job]);
    Stop(s5);
    assert Do(s4, SendResult(0)) == s5;
    Before(s4, SendResult(0), [], s5);
    assert Do(s3, ParseOk(0)) == s4;
    Before(s3, ParseOk(0), [SendResult(0)] + [], s5);
    assert Do(s2, l) == s3;
    Before(s2, l, [ParseOk(0)] + ([SendResult(0)] + []), s5);
    assert Do(s1, Take(0)) == s2;
    Before(s1, Take(0), [l] + ([ParseOk(0)] + ([SendResult(0)] + [])), s5);
    assert Do(s0, Enqueue(task)) == s1;
    Before(s0, Enqueue(task), [Take(0)] + ([l] + ([ParseOk(0)] + ([SendResult(0)] + []))), s5);
  }

  /** The writer with the mutex, its job announced. */
  function Announcing(job: nat, a: WorkerAt, rows: Rows, stored: seq<nat>): State {
    Quiet(a, rows, stored).(writer := Announced(job), mutex := HeldBy(Writer))
  }

  /** The writer takes a result, the mutex, and announces the job. */
  lemma HandOver(job: nat, a: WorkerAt, rows: Rows, stored: seq<nat>, rest: seq<Label>, t: State)
    requires job in rows && Leads(Announcing(job, a, rows[job := MERGING], stored), rest, t)
    ensures Leads(Quiet(a, rows, stored).(results := [job]), [Receive]
        + ([Lock(Writer)] + ([MarkMerging(Writer, true)] + rest)), t)
  {
    hide Leads;
    var s0 := Quiet(a, rows, stored).(results := [job]);
    var s1 := Quiet(a, rows, stored).(writer := Waiting(job));
    var s2 := s1.(writer := Locked(job), mutex := HeldBy(Writer));
    assert Do(s2, MarkMerging(Writer, true)) == Announcing(job, a, rows[job := MERGING], stored);
    Before(s2, MarkMerging(Writer, true), rest, t);
    Before(s1, Lock(Writer), [MarkMerging(Writer, true)] + rest, t);
    assert Do(s0, Receive) == s1 by {
      assert [job][1..] == [];
    }
    Before(s0, Receive, [Lock(Writer)] + ([MarkMerging(Writer, true)] + rest), t);
  }

  lemma WriterLeads(job: nat, a: WorkerAt, rows: Rows, stored: seq<nat>)
    requires job in rows
    ensures Leads(Quiet(a, rows, stored).(results := [job]), WRITER_RUN, Quiet(a, rows[job := MERGED], stored + [job]))
  {
    hide Leads;
    UpsertLeads(job, a, rows, stored);
    HandOver(job, a, rows, stored, [MergeAndUpsert(Writer, true)]
        + ([MarkMerged(Writer, true)] + ([Unlock(Writer)] + [])),
             Quiet(a, rows[job := MERGED], stored + [job]));
  }

  lemma UpsertLeads(job: nat, a: WorkerAt, rows: Rows, stored: seq<nat>)
    requires job in rows
    ensures Leads(Announcing(job, a, rows[job := MERGING], stored),
                  [MergeAndUpsert(Writer, true)] + ([MarkMerged(Writer, true)] + ([Unlock(Writer)] + [])),
                  Quiet(a, rows[job := MERGED], stored + [job]))
  {
    hide Leads;
    var s3 := Announcing(job, a, rows[job := MERGING], stored);
    var s4 := s3.(writer := Stored(job), stored := stored + [job]);
    var s5 := s4.(writer := Unlocking, rows := rows[job := MERGED]);
    var s6 := Quiet(a, rows[job := MERGED], stored + [job]);
    Stop(s6);
    Before(s5, Unlock(Writer), [], s6);
    assert rows[job := MERGING][job := MERGED] == rows[job := MERGED];
    assert Do(s4, MarkMerged(Writer, true)) == s5;
    Before(s4, MarkMerged(Writer, true), [Unlock(Writer)] + [], s6);
    Before(s3, MergeAndUpsert(Writer, true), [MarkMerged(Writer, true)] + ([Unlock(Writer)] + []), s6);
  }

  lemma PublishLeads(job: nat, rows: Rows, stored: seq<nat>)
    requires job in rows
    ensures Leads(Quiet(Publish(job), rows, stored), [PublishReady(0, true)], Quiet(Idle, rows[job := READY], stored))
  {
    var s := Quiet(Publish(job), rows, stored);
    Stop(Do(s, PublishReady(0, true)));
    Before(s, PublishReady(0, true), [], Do(s, PublishReady(0, true)));
    assert [PublishReady(0, true)] + [] == [PublishReady(0, true)];
  }

  function FilePass(task: nat, job: nat): seq<Label> {
    WorkerRun(task, job) + WRITER_RUN + [PublishReady(0, true)]
  }

  /** One file goes through; its worker publishes only after the writer has finished. */
  lemma PassLeads(task: nat, job: nat, rows: Rows, stored: seq<nat>)
    requires if task == 0 then job !in rows else job == task && job in rows
    ensures Leads(Quiet(Idle, rows, stored), WorkerRun(task, job) + WRITER_RUN,
                  Quiet(Publish(job), rows[job := MERGED], stored + [job]))
    ensures Leads(Quiet(Idle, rows, stored), FilePass(task, job), Quiet(Idle, rows[job := READY], stored + [job]))
  {
    hide Leads;
    WorkerLeads(task, job, rows, stored);
    WriterLeads(job, Publish(job), rows[job := PARSING], stored);
    assert rows[job := PARSING][job := MERGED] == rows[job := MERGED];
    InTurn(Quiet(Idle, rows, stored), WorkerRun(task, job), WRITER_RUN,
           Quiet(Publish(job), rows[job := PARSING], stored).(results := [job]),
           Quiet(Publish(job), rows[job := MERGED], stored + [job]));
    PublishLeads(job, rows[job := MERGED], stored + [job]);
    assert rows[job := MERGED][job := READY] == rows[job := READY];
    InTurn(Quiet(Idle, rows, stored), WorkerRun(task, job) + WRITER_RUN, [PublishReady(0, true)],
           Quiet(Publish(job), rows[job := MERGED], stored + [job]), Quiet(Idle, rows[job := READY], stored + [job]));
  }

  /**
   `merged` can be overwritten: a stored job whose row read merged ends as
   queued and parsed_ready, with no step left.
   */
  lemma MergedOverwritten()
    ensures Leads(Start(1, map[]), WorkerRun(0, 1) + WRITER_RUN, Quiet(Publish(1), map[1 := MERGED], [1]))
    ensures Leads(Start(1, map[]), FilePass(0, 1), Quiet(Idle, map[1 := READY], [1]))
    ensures forall l <- FilePass(0, 1) :: Captured(l)
  {
    hide Leads;
    assert Start(1, map[]) == Quiet(Idle, map[], []);
    PassLeads(0, 1, map[], []);
    assert map[][1 := MERGED] == map[1 := MERGED] && map[][1 := READY] == map[1 := READY];
    assert [] + [1] == [1];
  }

  /** Why tasks must come without a job id: one sent twice under an id is stored twice. */
  lemma TaggedTaskStoredTwice(job: nat)
    requires job != 0
    ensures Leads(Start(1, map[job := MERGED]), FilePass(job, job) + FilePass(job, job),
                  Quiet(Idle, map[job := READY], [job, job]))
  {
    var rows := map[job := MERGED];
    assert Start(1, rows) == Quiet(Idle, rows, []);
    PassLeads(job, job, rows, []);
    assert rows[job := READY] == map[job := READY] && [] + [job] == [job];
    PassLeads(job, job, map[job := READY], [job]);
    assert map[job := READY][job := READY] == map[job := READY] && [job] + [job] == [job, job];
    InTurn(Start(1, rows), FilePass(job, job), FilePass(job, job), Quiet(Idle, map[job := READY], [job]),
           Quiet(Idle, map[job := READY], [job, job]));
  }
}
