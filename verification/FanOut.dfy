/**
 The batched insert of request logs and of transport events: rows are cut into
 batches, a semaphore of four slots bounds the goroutines, each goroutine sends
 its outcome and then gives its slot back, and the caller takes all four slots
 before it closes the channel and reads it.  A label names one atomic action,
 so a schedule is a list of labels.
 */
module FanOut {
  const BATCH: nat := 1000
  const SLOTS: nat := 4

  // ---- cutting the rows into batches --------------------------------------

  function Concat<T>(batches: seq<seq<T>>): seq<T> {
    if batches == [] then [] else Concat(batches[..|batches| - 1]) + batches[|batches| - 1]
  }

  /** Full batches, then one that is neither empty nor too long. */
  predicate WellCut<T>(batches: seq<seq<T>>) {
    && (forall b | 0 <= b < |batches| - 1 :: |batches[b]| == 1000)
    && (batches != [] ==> 0 < |batches[|batches| - 1]| <= 1000)
  }

  /** The batches concatenate to the rows, in order, and there are as few as can be. */
  method Cut<T>(rows: seq<T>) returns (batches: seq<seq<T>>)
    ensures Concat(batches) == rows && WellCut(batches)
    ensures |batches| == (|rows| + 999) / 1000
  {
    batches := [];
    var i := 0;
    while i < |rows|
      invariant i == |batches| * BATCH
      invariant Concat(batches) == rows[..if i <= |rows| then i else |rows|]
      invariant WellCut(batches) && (i <= |rows| ==> forall b | 0 <= b < |batches| :: |batches[b]| == BATCH)
      invariant i < |rows| + BATCH
    {
      var end := i + BATCH;
      if end > |rows| {
        end := |rows|;
      }
      assert (batches + [rows[i..end]])[..|batches|] == batches;
      assert rows[..i] + rows[i..end] == rows[..end];
      batches := batches + [rows[i..end]];
      i := i + BATCH;
    }
    assert rows[..|rows|] == rows;
  }

  // ---- the goroutines ------------------------------------------------------

  /** What one multi-row statement answered: nil, or an error. */
  datatype Outcome = Nil | Error(code: int)

  /** Where one goroutine is: its statement runs, its outcome waits to be sent, its slot waits to be given back. */
  datatype RunAt = Running | Answered(outcome: Outcome) | Sent(outcome: Outcome) | Released(outcome: Outcome)

  datatype Phase = Launching | Filling | Closed

  /** `taken` is the number of slots in use, `filled` how many of them the caller took after its loop. */
  datatype State<T> = State(
    batches: seq<seq<T>>, runs: seq<RunAt>, taken: nat, filled: nat, errs: seq<Outcome>, phase: Phase,
    table: multiset<T>)

  datatype Label = Launch | Execute(b: nat, outcome: Outcome) | Send(b: nat) | Release(b: nat) | LoopDone | Fill | Close

  function Start<T>(batches: seq<seq<T>>, table: multiset<T>): State<T> {
    State(batches, [], 0, 0, [], Launching, table)
  }

  predicate Enabled<T(==)>(s: State<T>, l: Label) {
    match l
    case Launch => s.phase.Launching? && |s.runs| < |s.batches| && s.taken < SLOTS
    case Execute(b, _) => b < |s.runs| <= |s.batches| && s.runs[b].Running?
    case Send(b) => b < |s.runs| && s.runs[b].Answered? && |s.errs| < |s.batches|
    case Release(b) => b < |s.runs| && s.runs[b].Sent? && s.taken > 0
    case LoopDone => s.phase.Launching? && |s.runs| == |s.batches|
    case Fill => s.phase.Filling? && s.filled < SLOTS && s.taken < SLOTS
    case Close => s.phase.Filling? && s.filled == SLOTS
  }

  function Do<T(==)>(s: State<T>, l: Label): State<T>
    requires Enabled(s, l)
  {
    match l
    case Launch => s.(runs := s.runs + [Running], taken := s.taken + 1)
    case Execute(b, outcome) =>
      s.(runs := s.runs[b := Answered(outcome)],
         table := if outcome.Nil? then s.table + multiset(s.batches[b]) else s.table)
    case Send(b) => s.(runs := s.runs[b := Sent(s.runs[b].outcome)], errs := s.errs + [s.runs[b].outcome])
    case Release(b) => s.(runs := s.runs[b := Released(s.runs[b].outcome)], taken := s.taken - 1)
    case LoopDone => s.(phase := Filling)
    case Fill => s.(taken := s.taken + 1, filled := s.filled + 1)
    case Close => s.(phase := Closed)
  }

  predicate CanRun<T(==)>(s: State<T>, ls: seq<Label>)
    decreases ls
  {
    ls == [] || (Enabled(s, ls[0]) && CanRun(Do(s, ls[0]), ls[1..]))
  }

  function Run<T(==)>(s: State<T>, ls: seq<Label>): State<T>
    requires CanRun(s, ls)
    decreases ls
  {
    if ls == [] then s else Run(Do(s, ls[0]), ls[1..])
  }

  /** Reading the closed channel: the first error in it, or nil. */
  function Answer(errs: seq<Outcome>): Outcome {
    if errs == [] then Nil else if errs[0] != Nil then errs[0] else Answer(errs[1..])
  }

  // ---- counting ------------------------------------------------------------

  /** How many goroutines hold a slot. */
  function Holding(runs: seq<RunAt>): nat {
    if runs == [] then 0 else Holding(runs[..|runs| - 1]) + Slot(runs[|runs| - 1])
  }

  function Slot(r: RunAt): nat {
    if r.Released? then 0 else 1
  }

  /** The outcomes already sent. */
  function SentOutcomes(runs: seq<RunAt>): multiset<Outcome> {
    if runs == [] then multiset{} else SentOutcomes(runs[..|runs| - 1]) + SentBy(runs[|runs| - 1])
  }

  function SentBy(r: RunAt): multiset<Outcome> {
    if r.Sent? || r.Released? then multiset{r.outcome} else multiset{}
  }

  /** The rows of the batches whose statement succeeded. */
  function Inserted<T>(batches: seq<seq<T>>, runs: seq<RunAt>): multiset<T>
    requires |runs| <= |batches|
  {
    if runs == [] then multiset{}
    else Inserted(batches, runs[..|runs| - 1]) + InsertedBy(batches[|runs| - 1], runs[|runs| - 1])
  }

  function InsertedBy<T>(batch: seq<T>, r: RunAt): multiset<T> {
    if !r.Running? && r.outcome.Nil? then multiset(batch) else multiset{}
  }

  ghost predicate Inv<T>(s: State<T>, table: multiset<T>) {
    && |s.runs| <= |s.batches|
    && s.taken == Holding(s.runs) + s.filled <= SLOTS
    && multiset(s.errs) == SentOutcomes(s.runs)
    && s.table == table + Inserted(s.batches, s.runs)
    && (s.phase.Launching? ==> s.filled == 0)
    && (!s.phase.Launching? ==> |s.runs| == |s.batches|)
    && (s.phase.Closed? ==> s.filled == SLOTS)
  }

  lemma {:induction false} HoldingChanges(runs: seq<RunAt>, b: nat, r: RunAt)
    requires b < |runs|
    ensures Holding(runs[b := r]) + Slot(runs[b]) == Holding(runs) + Slot(r)
  {
    var n := |runs| - 1;
    if b == n {
      assert runs[b := r][..n] == runs[..n];
    } else {
      HoldingChanges(runs[..n], b, r);
      assert runs[b := r][..n] == runs[..n][b := r];
    }
  }

  lemma Shift<T>(a: multiset<T>, x: multiset<T>, b: multiset<T>)
    ensures (a + x) + b == (a + b) + x
  {
  }

  lemma {:induction false} SentChanges(runs: seq<RunAt>, b: nat, r: RunAt)
    requires b < |runs|
    ensures SentOutcomes(runs[b := r]) + SentBy(runs[b]) == SentOutcomes(runs) + SentBy(r)
  {
    hide SentBy;
    var n := |runs| - 1;
    if b == n {
      assert runs[b := r][..n] == runs[..n];
    } else {
      SentChanges(runs[..n], b, r);
      assert runs[b := r][..n] == runs[..n][b := r];
      Shift(SentOutcomes(runs[..n][b := r]), SentBy(runs[n]), SentBy(runs[b]));
      Shift(SentOutcomes(runs[..n]), SentBy(runs[n]), SentBy(r));
    }
  }

  lemma {:induction false} InsertedChanges<T>(batches: seq<seq<T>>, runs: seq<RunAt>, b: nat, r: RunAt)
    requires b < |runs| <= |batches|
    ensures Inserted(batches, runs[b := r]) + InsertedBy(batches[b], runs[b])
       == Inserted(batches, runs) + InsertedBy(batches[b], r)
  {
    hide InsertedBy;
    var n := |runs| - 1;
    if b == n {
      assert runs[b := r][..n] == runs[..n];
    } else {
      InsertedChanges(batches, runs[..n], b, r);
      assert runs[b := r][..n] == runs[..n][b := r];
      Shift(Inserted(batches, runs[..n][b := r]), InsertedBy(batches[n], runs[n]), InsertedBy(batches[b], runs[b]));
      Shift(Inserted(batches, runs[..n]), InsertedBy(batches[n], runs[n]), InsertedBy(batches[b], r));
    }
  }

  lemma Cancel<T>(a: multiset<T>, b: multiset<T>, x: multiset<T>)
    ensures a + x == b + x ==> a == b
    ensures a + multiset{} == a
  {
    if a + x == b + x {
      assert a == (a + x) - x && b == (b + x) - x;
    }
  }

  lemma SentKept(runs: seq<RunAt>, b: nat, r: RunAt)
    requires b < |runs|
    ensures SentBy(r) == SentBy(runs[b]) ==> SentOutcomes(runs[b := r]) == SentOutcomes(runs)
    ensures SentBy(runs[b]) == multiset{} ==> SentOutcomes(runs[b := r]) == SentOutcomes(runs) + SentBy(r)
  {
    hide SentOutcomes, SentBy;
    SentChanges(runs, b, r);
    Cancel(SentOutcomes(runs[b := r]), SentOutcomes(runs), SentBy(r));
  }

  lemma InsertedKept<T>(batches: seq<seq<T>>, runs: seq<RunAt>, b: nat, r: RunAt)
    requires b < |runs| <= |batches|
    ensures InsertedBy(batches[b], r) == InsertedBy(batches[b], runs[b]) ==>
      Inserted(batches, runs[b := r]) == Inserted(batches, runs)
    ensures InsertedBy(batches[b], runs[b]) == multiset{} ==>
      Inserted(batches, runs[b := r]) == Inserted(batches, runs) + InsertedBy(batches[b], r)
  {
    hide Inserted, InsertedBy;
    InsertedChanges(batches, runs, b, r);
    Cancel(Inserted(batches, runs[b := r]), Inserted(batches, runs), InsertedBy(batches[b], r));
  }

  lemma GoroutineMoves<T>(s: State<T>, b: nat, r: RunAt)
    requires b < |s.runs| <= |s.batches|
    ensures Holding(s.runs[b := r]) + Slot(s.runs[b]) == Holding(s.runs) + Slot(r)
    ensures SentBy(r) == SentBy(s.runs[b]) ==> SentOutcomes(s.runs[b := r]) == SentOutcomes(s.runs)
    ensures SentBy(s.runs[b]) == multiset{} ==> SentOutcomes(s.runs[b := r]) == SentOutcomes(s.runs) + SentBy(r)
    ensures InsertedBy(s.batches[b], r) == InsertedBy(s.batches[b], s.runs[b]) ==>
      Inserted(s.batches, s.runs[b := r]) == Inserted(s.batches, s.runs)
    ensures InsertedBy(s.batches[b], s.runs[b]) == multiset{} ==>
      Inserted(s.batches, s.runs[b := r]) == Inserted(s.batches, s.runs) + InsertedBy(s.batches[b], r)
  {
    HoldingChanges(s.runs, b, r);
    SentKept(s.runs, b, r);
    InsertedKept(s.batches, s.runs, b, r);
  }

  lemma Regroup<T>(a: multiset<T>, b: multiset<T>, c: multiset<T>)
    ensures (a + b) + c == a + (b + c)
  {
  }

  lemma LaunchKeepsInv<T>(s: State<T>, table: multiset<T>)
    requires Inv(s, table) && Enabled(s, Launch)
    ensures Inv(Do(s, Launch), table)
  {
    assert (s.runs + [Running])[..|s.runs|] == s.runs;
  }

  lemma ExecuteKeepsInv<T>(s: State<T>, table: multiset<T>, b: nat, outcome: Outcome)
    requires Inv(s, table) && Enabled(s, Execute(b, outcome))
    ensures Inv(Do(s, Execute(b, outcome)), table)
  {
    hide Holding, SentOutcomes, Inserted;
    GoroutineMoves(s, b, Answered(outcome));
    if outcome.Nil? {
      Regroup(table, Inserted(s.batches, s.runs), multiset(s.batches[b]));
    } else {
      Cancel(Inserted(s.batches, s.runs), multiset{}, multiset{});
    }
  }

  lemma SendKeepsInv<T>(s: State<T>, table: multiset<T>, b: nat)
    requires Inv(s, table) && Enabled(s, Send(b))
    ensures Inv(Do(s, Send(b)), table)
  {
    hide Holding, SentOutcomes, Inserted;
    GoroutineMoves(s, b, Sent(s.runs[b].outcome));
  }

  lemma ReleaseKeepsInv<T>(s: State<T>, table: multiset<T>, b: nat)
    requires Inv(s, table) && Enabled(s, Release(b))
    ensures Inv(Do(s, Release(b)), table)
  {
    hide Holding, SentOutcomes, Inserted;
    GoroutineMoves(s, b, Released(s.runs[b].outcome));
  }

  /** Every atomic action keeps the invariant. */
  lemma StepKeepsInv<T>(s: State<T>, table: multiset<T>, l: Label)
    requires Inv(s, table) && Enabled(s, l)
    ensures Inv(Do(s, l), table)
  {
    match l
    case Launch => LaunchKeepsInv(s, table);
    case Execute(b, outcome) => ExecuteKeepsInv(s, table, b, outcome);
    case Send(b) => SendKeepsInv(s, table, b);
    case Release(b) => ReleaseKeepsInv(s, table, b);
    case _ =>
  }

  lemma {:induction false} ScheduleKeepsInv<T>(s: State<T>, table: multiset<T>, ls: seq<Label>)
    requires Inv(s, table) && CanRun(s, ls)
    ensures Inv(Run(s, ls), table)
    ensures Run(s, ls).batches == s.batches
    ensures Progress(Run(s, ls)) == Progress(s) + |ls|
    decreases ls
  {
    if ls != [] {
      StepKeepsInv(s, table, ls[0]);
      StepProgresses(s, table, ls[0]);
      ScheduleKeepsInv(Do(s, ls[0]), table, ls[1..]);
    }
  }

  lemma StartInv<T>(batches: seq<seq<T>>, table: multiset<T>)
    ensures Inv(Start(batches, table), table) && Progress(Start(batches, table)) == 0
  {
    assert multiset(Start(batches, table).errs) == multiset{};
  }

  // ---- at most four at once, and no send blocks ----------------------------

  lemma {:induction false} HoldingZero(runs: seq<RunAt>, b: nat)
    requires Holding(runs) == 0 && b < |runs|
    ensures runs[b].Released?
  {
    var n := |runs| - 1;
    if b < n {
      HoldingZero(runs[..n], b);
    }
  }

  lemma {:induction false} SentCount(runs: seq<RunAt>, b: nat)
    ensures |SentOutcomes(runs)| <= |runs|
    ensures b < |runs| && SentBy(runs[b]) == multiset{} ==> |SentOutcomes(runs)| < |runs|
  {
    if runs != [] {
      SentCount(runs[..|runs| - 1], b);
    }
  }

  /**
   In every schedule at most four batches hold a slot, and a goroutine with an
   answer can send it at once, before the close.
   */
  lemma {:induction false} NeverMoreThanFour<T>(batches: seq<seq<T>>, table: multiset<T>, ls: seq<Label>, b: nat)
    requires CanRun(Start(batches, table), ls)
    ensures var s := Run(Start(batches, table), ls);
      && Holding(s.runs) <= 4
      && (b < |s.runs| && s.runs[b].Answered? ==> Enabled(s, Send(b)))
      && (b < |s.runs| && s.phase.Closed? ==> s.runs[b].Released?)
  {
    var s := Run(Start(batches, table), ls);
    StartInv(batches, table);
    ScheduleKeepsInv(Start(batches, table), table, ls);
    SentCount(s.runs, b);
    assert |s.errs| == |multiset(s.errs)|;
    if b < |s.runs| && s.phase.Closed? {
      HoldingZero(s.runs, b);
    }
  }

  // ---- every schedule ends -------------------------------------------------

  function Stage(r: RunAt): nat {
    match r
    case Running => 1
    case Answered(_) => 2
    case Sent(_) => 3
    case Released(_) => 4
  }

  function Stages(runs: seq<RunAt>): nat {
    if runs == [] then 0 else Stages(runs[..|runs| - 1]) + Stage(runs[|runs| - 1])
  }

  /** How many actions a state has behind it. */
  function Progress<T>(s: State<T>): nat {
    Stages(s.runs) + s.filled + match s.phase case Launching => 0 case Filling => 1 case Closed => 2
  }

  lemma {:induction false} StagesChange(runs: seq<RunAt>, b: nat, r: RunAt)
    requires b < |runs|
    ensures Stages(runs[b := r]) + Stage(runs[b]) == Stages(runs) + Stage(r)
  {
    var n := |runs| - 1;
    if b == n {
      assert runs[b := r][..n] == runs[..n];
    } else {
      StagesChange(runs[..n], b, r);
      assert runs[b := r][..n] == runs[..n][b := r];
    }
  }

  lemma StepProgresses<T>(s: State<T>, table: multiset<T>, l: Label)
    requires Inv(s, table) && Enabled(s, l)
    ensures Progress(Do(s, l)) == Progress(s) + 1
  {
    match l
    case Launch => assert (s.runs + [Running])[..|s.runs|] == s.runs;
    case Execute(b, outcome) => StagesChange(s.runs, b, Answered(outcome));
    case Send(b) => StagesChange(s.runs, b, Sent(s.runs[b].outcome));
    case Release(b) => StagesChange(s.runs, b, Released(s.runs[b].outcome));
    case _ =>
  }

  lemma {:induction false} StagesBound(runs: seq<RunAt>)
    ensures Stages(runs) <= 4 * |runs|
    ensures Holding(runs) == 0 <==> Stages(runs) == 4 * |runs|
  {
    if runs != [] {
      StagesBound(runs[..|runs| - 1]);
    }
  }

  /** Some goroutine that still holds a slot. */
  lemma {:induction false} Holder(runs: seq<RunAt>) returns (b: nat)
    requires Holding(runs) > 0
    ensures b < |runs| && !runs[b].Released?
  {
    b := |runs| - 1;
    if runs[b].Released? {
      b := Holder(runs[..b]);
    }
  }

  /** No schedule gets stuck before the channel is closed. */
  lemma CanContinue<T>(s: State<T>, table: multiset<T>) returns (l: Label)
    requires Inv(s, table) && !s.phase.Closed?
    ensures Enabled(s, l)
  {
    if Holding(s.runs) > 0 {
      var b := Holder(s.runs);
      SentCount(s.runs, b);
      assert |s.errs| == |multiset(s.errs)|;
      l := match s.runs[b]
        case Running => Execute(b, Nil)
        case Answered(_) => Send(b)
        case _ => Release(b);
    } else {
      l := if s.phase.Launching? then if |s.runs| < |s.batches| then Launch else LoopDone
           else if s.filled < SLOTS then Fill else Close;
    }
  }

  /** Every schedule takes at most 4n + 6 actions, reaches the close exactly then, and can always be continued to it. */
  lemma {:induction false} EverySchedule<T>(batches: seq<seq<T>>, table: multiset<T>, ls: seq<Label>)
    requires CanRun(Start(batches, table), ls)
    ensures |ls| <= 4 * |batches| + 6
    ensures Run(Start(batches, table), ls).phase.Closed? <==> |ls| == 4 * |batches| + 6
    ensures Run(Start(batches, table), ls).phase.Closed? <==> forall l :: !Enabled(Run(Start(batches, table), ls), l)
  {
    var s := Run(Start(batches, table), ls);
    StartInv(batches, table);
    ScheduleKeepsInv(Start(batches, table), table, ls);
    StagesBound(s.runs);
    if !s.phase.Closed? {
      var l := CanContinue(s, table);
    } else {
      forall l ensures !Enabled(s, l) {
        if l.Execute? || l.Send? || l.Release? {
          if l.b < |s.runs| {
            HoldingZero(s.runs, l.b);
          }
        }
      }
    }
  }

  // ---- what the caller is told ---------------------------------------------

  lemma {:induction false} AnswerIs(errs: seq<Outcome>)
    ensures Answer(errs) == Nil <==> forall e <- errs :: e == Nil
    ensures Answer(errs) != Nil ==>
      exists i | 0 <= i < |errs| :: errs[i] == Answer(errs) && forall j | 0 <= j < i :: errs[j] == Nil
  {
    if errs != [] {
      AnswerIs(errs[1..]);
      if errs[0] == Nil && Answer(errs) != Nil {
        var i :| 0 <= i < |errs| - 1 && errs[1..][i] == Answer(errs) && forall j | 0 <= j < i :: errs[1..][j] == Nil;
        assert errs[i + 1] == Answer(errs);
        forall j | 0 <= j < i + 1 ensures errs[j] == Nil {
          assert j > 0 ==> errs[1..][j - 1] == errs[j];
        }
      }
      assert forall e <- errs :: e == errs[0] || e in errs[1..];
      assert errs[0] in errs && forall e <- errs[1..] :: e in errs;
    }
  }

  lemma {:induction false} OutcomeIn(runs: seq<RunAt>, b: nat)
    requires b < |runs| && runs[b].Released?
    ensures runs[b].outcome in SentOutcomes(runs)
  {
    var n := |runs| - 1;
    if b < n {
      OutcomeIn(runs[..n], b);
    }
  }

  lemma {:induction false} OutcomeOf(runs: seq<RunAt>, o: Outcome) returns (b: nat)
    requires o in SentOutcomes(runs)
    ensures b < |runs| && !runs[b].Running? && runs[b].outcome == o
  {
    var n := |runs| - 1;
    b := n;
    if o !in SentBy(runs[n]) {
      b := OutcomeOf(runs[..n], o);
    }
  }

  lemma {:induction false} AllInserted<T>(batches: seq<seq<T>>, runs: seq<RunAt>)
    requires |runs| <= |batches| && forall b | 0 <= b < |runs| :: runs[b] == Released(Nil)
    ensures Inserted(batches, runs) == multiset(Concat(batches[..|runs|]))
  {
    if runs == [] {
      assert batches[..0] == [];
    } else {
      var n := |runs| - 1;
      AllInserted(batches, runs[..n]);
      assert batches[..n + 1][..n] == batches[..n];
    }
  }

  /** A goroutine's outcome is what its one statement answered in the schedule. */
  lemma {:induction false} OutcomeIsAnswer<T>(s: State<T>, ls: seq<Label>, b: nat)
    requires CanRun(s, ls) && b < |Run(s, ls).runs|
    ensures var r := Run(s, ls).runs[b];
      if b < |s.runs| && !s.runs[b].Running? then
        !r.Running? && r.outcome == s.runs[b].outcome && forall o :: Execute(b, o) !in ls
      else if r.Running? then forall o :: Execute(b, o) !in ls
      else Execute(b, r.outcome) in ls && forall o | Execute(b, o) in ls :: o == r.outcome
    decreases ls
  {
    if ls != [] {
      hide Enabled;
      OutcomeIsAnswer(Do(s, ls[0]), ls[1..], b);
      assert ls == [ls[0]] + ls[1..];
      OneAction(s, ls[0], b);
      hide Do;
    }
  }

  lemma OneAction<T>(s: State<T>, l: Label, b: nat)
    requires Enabled(s, l)
    ensures b < |s.runs| ==> b < |Do(s, l).runs|
    ensures b < |s.runs| && !s.runs[b].Running? ==>
      !Do(s, l).runs[b].Running? && Do(s, l).runs[b].outcome == s.runs[b].outcome && !(l.Execute? && l.b == b)
    ensures b < |Do(s, l).runs| && !(b < |s.runs| && !s.runs[b].Running?) ==>
      if l.Execute? && l.b == b then Do(s, l).runs[b] == Answered(l.outcome) else Do(s, l).runs[b].Running?
    ensures b >= |Do(s, l).runs| ==> !(l.Execute? && l.b == b)
  {
  }

  lemma {:induction false} RunsGrow<T>(s: State<T>, ls: seq<Label>)
    requires CanRun(s, ls)
    ensures |s.runs| <= |Run(s, ls).runs|
    ensures forall l <- ls | l.Execute? :: l.b < |Run(s, ls).runs|
    decreases ls
  {
    if ls != [] {
      RunsGrow(Do(s, ls[0]), ls[1..]);
      assert ls == [ls[0]] + ls[1..];
    }
  }

  /**
   Once the channel is closed the caller gets nil exactly when every batch
   succeeded, and then every row is in the table exactly once more; otherwise it
   gets the error of some batch, and exactly the successful batches are in.
   */
  lemma {:induction false} CallerTold<T>(batches: seq<seq<T>>, table: multiset<T>, ls: seq<Label>)
    requires CanRun(Start(batches, table), ls) && Run(Start(batches, table), ls).phase.Closed?
    ensures var s := Run(Start(batches, table), ls);
      && |s.runs| == |batches| && (forall r <- s.runs :: r.Released?)
      && (Answer(s.errs) == Nil <==> forall r <- s.runs :: r == Released(Nil))
      && (Answer(s.errs) != Nil ==> Released(Answer(s.errs)) in s.runs)
      && s.table == table + Inserted(batches, s.runs)
      && (Answer(s.errs) == Nil ==> s.table == table + multiset(Concat(batches)))
  {
    var s := Run(Start(batches, table), ls);
    StartInv(batches, table);
    ScheduleKeepsInv(Start(batches, table), table, ls);
    forall r <- s.runs ensures r.Released? {
      var b :| 0 <= b < |s.runs| && s.runs[b] == r;
      HoldingZero(s.runs, b);
    }
    AnswerIs(s.errs);
    forall r <- s.runs ensures r.outcome in s.errs {
      var b :| 0 <= b < |s.runs| && s.runs[b] == r;
      OutcomeIn(s.runs, b);
      assert r.outcome in multiset(s.errs);
    }
    forall o <- s.errs ensures Released(o) in s.runs {
      assert o in multiset(s.errs);
      var b := OutcomeOf(s.runs, o);
      assert s.runs[b].Released?;
    }
    if Answer(s.errs) == Nil {
      forall b | 0 <= b < |s.runs| ensures s.runs[b] == Released(Nil) {
        assert s.runs[b] in s.runs;
      }
      AllInserted(batches, s.runs);
      assert batches[..|s.runs|] == batches;
    }
  }

  /** In a closed schedule every batch was answered, once, and its outcome is that answer. */
  lemma {:induction false} OutcomesAreAnswers<T>(batches: seq<seq<T>>, table: multiset<T>, ls: seq<Label>, b: nat)
    requires CanRun(Start(batches, table), ls) && Run(Start(batches, table), ls).phase.Closed? && b < |batches|
    ensures var s := Run(Start(batches, table), ls);
      && |s.runs| == |batches| && s.runs[b].Released? && Execute(b, s.runs[b].outcome) in ls
      && forall l <- ls | l.Execute? :: l.b < |batches| && (l.b == b ==> l.outcome == s.runs[b].outcome)
  {
    hide Inv, Do, Enabled;
    CallerTold(batches, table, ls);
    OutcomeIsAnswer(Start(batches, table), ls, b);
    RunsGrow(Start(batches, table), ls);
    var s := Run(Start(batches, table), ls);
    assert s.runs[b] in s.runs;
    forall l <- ls | l.Execute? ensures l.b < |batches| && (l.b == b ==> l.outcome == s.runs[b].outcome) {
      if l.b == b {
        assert l == Execute(b, l.outcome);
      }
    }
  }
}
