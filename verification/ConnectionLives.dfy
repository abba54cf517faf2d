/**
 A connection across the sweeps that drop it.  The total over all its lives
 depends on the order of the jobs exactly when an unhinted job can follow a
 hinted one that leaves the connection tracked; and a retried job counts again
 exactly when no sweep has dropped the connection in the meantime.
 */
module ConnectionLives {
  import opened Model
  import opened Lists
  import opened Tracker
  import opened Indexes
  import opened Windowing
  import opened MergeOrder

  /** The state after some jobs, each merged and swept. */
  ghost function After(env: Env, st: State, jobs: seq<Job>): State {
    ProcessJobs(env, Outcome(st, map[]), jobs).live
  }

  lemma {:induction false} AfterNext(env: Env, st: State, jobs: seq<Job>, w: Job)
    ensures After(env, st, jobs + [w]) == Sweep(env, MergeJob(env, After(env, st, jobs), w), w.SweepEpoch())
  {
    assert (jobs + [w])[..|jobs|] == jobs;
  }

  predicate DropsIn(env: Env, st: State, w: Job, f: FlowKey) {
    Drops(env, MergeJob(env, st, w), w.SweepEpoch(), f)
  }

  /** One job, merged and swept. */
  lemma JobLeaves(env: Env, st: State, w: Job, f: FlowKey)
    requires PlainEnv(env) && Sound(st) && ClientFlowKey(f) && RegularJob(w)
    ensures var st' := Sweep(env, MergeJob(env, st, w), w.SweepEpoch());
      && Sound(st')
      && (f in st'.flowMap <==> (f in st.flowMap || (Hinted(env, w, f) && Has(w, f))) && !DropsIn(env, st, w, f))
      && TotalsOf(st', f) == if DropsIn(env, st, w, f) then ZERO else TotalsOf(MergeJob(env, st, w), f)
  {
    hide MergeJob, Sweep, Sound, TotalsOf, JobSum, Has, Hinted, LastSeenOf, LastOn, Drops, RegularJob;
    JobCounts(env, st, w, f);
    SweepTotals(env, MergeJob(env, st, w), w.SweepEpoch(), f);
  }

  lemma {:induction false} AfterSound(env: Env, st: State, jobs: seq<Job>)
    requires PlainEnv(env) && Sound(st) && forall w <- jobs :: RegularJob(w)
    ensures Sound(After(env, st, jobs))
  {
    hide Sound, RegularJob, MergeJob, Sweep;
    if jobs != [] {
      var init, w := jobs[..|jobs| - 1], jobs[|jobs| - 1];
      assert w in jobs && forall v <- init :: v in jobs;
      assert jobs == init + [w];
      AfterSound(env, st, init);
      AfterNext(env, st, init, w);
      JobLeaves(env, After(env, st, init), w, FlowKey("", 0, "", 443));
    }
  }

  // ---- the total over all lives ---------------------------------------------

  /** What a job's merge adds to the connection's session. */
  function Added(env: Env, st: State, w: Job, f: FlowKey): Totals {
    TotalsOf(MergeJob(env, st, w), f).Minus(TotalsOf(st, f))
  }

  /** What all the jobs add, whichever life of the connection they add it to. */
  ghost function OverLives(env: Env, st: State, jobs: seq<Job>, f: FlowKey): Totals {
    if jobs == [] then ZERO
    else
      var init, w := jobs[..|jobs| - 1], jobs[|jobs| - 1];
      OverLives(env, st, init, f).Plus(Added(env, After(env, st, init), w, f))
  }

  lemma {:induction false} OverLivesNext(env: Env, st: State, jobs: seq<Job>, w: Job, f: FlowKey)
    ensures OverLives(env, st, jobs + [w], f)
       == OverLives(env, st, jobs, f).Plus(Added(env, After(env, st, jobs), w, f))
  {
    assert (jobs + [w])[..|jobs|] == jobs;
  }

  lemma MinusPlus(a: Totals, b: Totals)
    ensures a.Plus(b).Minus(a) == b && a.Minus(a) == ZERO
  {
  }

  lemma AddedIs(env: Env, st: State, w: Job, f: FlowKey)
    requires PlainEnv(env) && Sound(st) && ClientFlowKey(f) && RegularJob(w)
    ensures Added(env, st, w, f) == if f in st.flowMap || Hinted(env, w, f) then JobSum(w, f) else ZERO
  {
    hide MergeJob, Sound, TotalsOf, JobSum, Hinted, Has, LastOn, LastSeenOf, RegularJob, Totals.Plus, Totals.Minus;
    JobCounts(env, st, w, f);
    MinusPlus(TotalsOf(st, f), JobSum(w, f));
  }

  function IfHinted(env: Env, f: FlowKey): Job -> Totals {
    (w: Job) => if Hinted(env, w, f) then JobSum(w, f) else ZERO
  }

  /** What the hinted jobs hold of the connection. */
  function HintedSum(env: Env, jobs: seq<Job>, f: FlowKey): Totals {
    TotalOver(jobs, IfHinted(env, f))
  }

  lemma {:induction false} HintedNext(env: Env, jobs: seq<Job>, w: Job, f: FlowKey)
    ensures HintedSum(env, jobs + [w], f)
       == HintedSum(env, jobs, f).Plus(if Hinted(env, w, f) then JobSum(w, f) else ZERO)
  {
    TotalSnoc(jobs, w, IfHinted(env, f));
  }

  /** The job's own sweep finds what it holds of the connection idle. */
  predicate SelfDrops(env: Env, w: Job, f: FlowKey)
    requires Has(w, f)
  {
    w.SweepEpoch() - LastOn(w.parsed.packetEvents, f).epoch >= env.idleSeconds as real
  }

  predicate Dated(w: Job, f: FlowKey) {
    Has(w, f) ==> LastOn(w.parsed.packetEvents, f).epoch != 0.0
  }

  lemma DropsWhenIdle(env: Env, st: State, w: Job, f: FlowKey)
    requires PlainEnv(env) && Sound(st) && ClientFlowKey(f) && RegularJob(w) && Has(w, f) && Dated(w, f)
    requires f in st.flowMap || Hinted(env, w, f)
    ensures DropsIn(env, st, w, f) <==> SelfDrops(env, w, f)
  {
    hide MergeJob, TotalsOf, JobSum, Hinted, Has, LastOn, RegularJob, Mirrored, Keyed;
    JobCounts(env, st, w, f);
  }

  /** Every hinted job that holds the connection drops it again itself. */
  ghost predicate HintedDrop(env: Env, jobs: seq<Job>, f: FlowKey) {
    forall w <- jobs | Has(w, f) && Hinted(env, w, f) :: SelfDrops(env, w, f)
  }

  /** Nothing but hinted jobs is counted when all are hinted, or when each hinted job drops the connection itself. */
  lemma {:induction false} OnlyHintedCounted(env: Env, st: State, jobs: seq<Job>, f: FlowKey)
    requires PlainEnv(env) && Sound(st) && ClientFlowKey(f) && f !in st.flowMap
    requires forall w <- jobs :: RegularJob(w) && Dated(w, f)
    requires AllHinted(env, jobs, f) || HintedDrop(env, jobs, f)
    ensures OverLives(env, st, jobs, f) == HintedSum(env, jobs, f)
    ensures HintedDrop(env, jobs, f) ==> f !in After(env, st, jobs).flowMap
  {
    hide Sound, RegularJob, Dated, After, Added, Has, Hinted, SelfDrops, JobSum, Totals.Plus, DropsIn;
    if jobs == [] {
      NothingAfter(env, st);
    } else {
      var init, w := jobs[..|jobs| - 1], jobs[|jobs| - 1];
      assert w in jobs && forall v <- init :: v in jobs;
      assert jobs == init + [w];
      OnlyHintedCounted(env, st, init, f);
      var mid := After(env, st, init);
      AfterSound(env, st, init);
      AddedIs(env, mid, w, f);
      HintedNext(env, init, w, f);
      JobPackets(w, f);
      if HintedDrop(env, jobs, f) {
        AfterNext(env, st, init, w);
        JobLeaves(env, mid, w, f);
        if Has(w, f) && Hinted(env, w, f) {
          DropsWhenIdle(env, mid, w, f);
        }
      }
    }
  }

  lemma {:induction false} NothingAfter(env: Env, st: State)
    ensures After(env, st, []) == st
  {
  }

  /** Whatever is tracked, every further hinted job is counted. */
  lemma {:induction false} HintedCounted(env: Env, st: State, a: seq<Job>, b: seq<Job>, f: FlowKey)
    requires PlainEnv(env) && Sound(st) && ClientFlowKey(f) && forall w <- a + b :: RegularJob(w)
    ensures OverLives(env, st, a + b, f).packets >= OverLives(env, st, a, f).packets + HintedSum(env, b, f).packets
    ensures AllHinted(env, b, f) ==> OverLives(env, st, a + b, f) == OverLives(env, st, a, f).Plus(HintedSum(env, b, f))
  {
    hide Sound, RegularJob, After, Added, Has, Hinted, JobSum, Totals.Plus, OverLives, TotalOver;
    if b == [] {
      assert a + b == a;
      EmptyTotal(IfHinted(env, f));
      PlusZero(OverLives(env, st, a, f));
    } else {
      var init, w := b[..|b| - 1], b[|b| - 1];
      assert b == init + [w] && a + b == (a + init) + [w];
      assert w in a + b && forall v <- a + init :: v in a + b;
      HintedCounted(env, st, a, init, f);
      AfterSound(env, st, a + init);
      OverLivesNext(env, st, a + init, w, f);
      AddedIs(env, After(env, st, a + init), w, f);
      HintedNext(env, init, w, f);
      JobPackets(w, f);
      var part := if Hinted(env, w, f) then JobSum(w, f) else ZERO;
      PlusPackets(OverLives(env, st, a + init, f), Added(env, After(env, st, a + init), w, f));
      PlusPackets(HintedSum(env, init, f), part);
      if AllHinted(env, b, f) {
        assert w in b && forall v <- init :: v in b;
        PlusAssociates(OverLives(env, st, a, f), HintedSum(env, init, f), part);
      }
    }
  }

  lemma {:induction false} EmptyTotal(weight: Job -> Totals)
    ensures TotalOver([], weight) == ZERO
  {
  }

  /** Unhinted jobs alone count nothing of an untracked connection. */
  lemma {:induction false} UnhintedIgnored(env: Env, st: State, jobs: seq<Job>, f: FlowKey)
    requires PlainEnv(env) && Sound(st) && ClientFlowKey(f) && f !in st.flowMap
    requires forall w <- jobs :: RegularJob(w) && !Hinted(env, w, f)
    ensures OverLives(env, st, jobs, f) == ZERO && f !in After(env, st, jobs).flowMap
  {
    hide Sound, RegularJob, After, Added, Has, Hinted, JobSum, Totals.Plus, DropsIn;
    if jobs == [] {
      NothingAfter(env, st);
    } else {
      var init, w := jobs[..|jobs| - 1], jobs[|jobs| - 1];
      assert w in jobs && forall v <- init :: v in jobs;
      assert jobs == init + [w];
      UnhintedIgnored(env, st, init, f);
      AfterSound(env, st, init);
      AddedIs(env, After(env, st, init), w, f);
      AfterNext(env, st, init, w);
      JobLeaves(env, After(env, st, init), w, f);
      PlusZero(ZERO);
    }
  }

  // ---- two orders -----------------------------------------------------------

  /** The jobs that are hinted, or those that are not, in order. */
  ghost function Part(env: Env, jobs: seq<Job>, f: FlowKey, hinted: bool): seq<Job> {
    if jobs == [] then []
    else
      var init, w := jobs[..|jobs| - 1], jobs[|jobs| - 1];
      Part(env, init, f, hinted) + if Hinted(env, w, f) == hinted then [w] else []
  }

  lemma {:induction false} Parts(env: Env, jobs: seq<Job>, f: FlowKey)
    ensures multiset(Part(env, jobs, f, false)) + multiset(Part(env, jobs, f, true)) == multiset(jobs)
  {
    hide Hinted;
    if jobs != [] {
      var init, w := jobs[..|jobs| - 1], jobs[|jobs| - 1];
      Parts(env, init, f);
      assert jobs == init + [w];
      var a, b := Part(env, init, f, false), Part(env, init, f, true);
      if Hinted(env, w, f) {
        assert Part(env, jobs, f, false) == a + [] == a && Part(env, jobs, f, true) == b + [w];
      } else {
        assert Part(env, jobs, f, true) == b + [] == b && Part(env, jobs, f, false) == a + [w];
      }
    }
  }

  lemma {:induction false} PartIs(env: Env, jobs: seq<Job>, f: FlowKey, hinted: bool)
    ensures forall w <- Part(env, jobs, f, hinted) :: Hinted(env, w, f) == hinted
  {
    hide Hinted;
    if jobs != [] {
      PartIs(env, jobs[..|jobs| - 1], f, hinted);
    }
  }

  lemma {:induction false} NoneOfThem(env: Env, jobs: seq<Job>, f: FlowKey)
    requires forall w <- jobs :: !Hinted(env, w, f)
    ensures HintedSum(env, jobs, f) == ZERO
  {
    if jobs != [] {
      NoneOfThem(env, jobs[..|jobs| - 1], f);
    }
  }

  lemma {:induction false} HintedApart(env: Env, a: seq<Job>, b: seq<Job>, f: FlowKey)
    requires forall w <- a :: !Hinted(env, w, f)
    ensures HintedSum(env, a + b, f) == HintedSum(env, b, f)
  {
    hide Hinted, Totals.Plus;
    if b == [] {
      assert a + b == a;
      NoneOfThem(env, a, f);
    } else {
      HintedApart(env, a, b[..|b| - 1], f);
      assert (a + b)[..|a + b| - 1] == a + b[..|b| - 1];
    }
  }

  /** Unhinted jobs first, hinted jobs last: only the hinted ones are counted. */
  lemma {:induction false} LeastOrder(env: Env, st: State, jobs: seq<Job>, f: FlowKey) returns (jobs': seq<Job>)
    requires PlainEnv(env) && Sound(st) && ClientFlowKey(f) && f !in st.flowMap && forall w <- jobs :: RegularJob(w)
    ensures multiset(jobs') == multiset(jobs) && OverLives(env, st, jobs', f) == HintedSum(env, jobs, f)
  {
    hide Sound, RegularJob, Hinted, OverLives, HintedSum, Part, Has;
    var a, b := Part(env, jobs, f, false), Part(env, jobs, f, true);
    Parts(env, jobs, f);
    PartIs(env, jobs, f, false);
    PartIs(env, jobs, f, true);
    jobs' := a + b;
    forall w | w in jobs' ensures w in jobs {
      assert w in multiset(jobs');
    }
    assert forall w <- a :: w in jobs';
    UnhintedIgnored(env, st, a, f);
    HintedCounted(env, st, a, b, f);
    PlusZero(HintedSum(env, b, f));
    HintedApart(env, a, b, f);
    SumPermutes(env, jobs', jobs, f);
  }

  lemma SumPermutes(env: Env, jobs: seq<Job>, jobs': seq<Job>, f: FlowKey)
    requires multiset(jobs) == multiset(jobs')
    ensures HintedSum(env, jobs, f) == HintedSum(env, jobs', f)
  {
    TotalPermutes(jobs, jobs', IfHinted(env, f));
  }

  /** A hinted job that leaves the connection tracked, then an unhinted one: both are counted. */
  lemma {:induction false} UnhintedFollows(env: Env, st: State, v: Job, w: Job, f: FlowKey)
    requires PlainEnv(env) && Sound(st) && ClientFlowKey(f) && RegularJob(v) && RegularJob(w) && Dated(v, f)
    requires Has(v, f) && Hinted(env, v, f) && !SelfDrops(env, v, f) && Has(w, f) && !Hinted(env, w, f)
    ensures OverLives(env, st, [v] + [w], f).packets > HintedSum(env, [v] + [w], f).packets
  {
    hide Sound, RegularJob, Dated, After, Added, Has, Hinted, SelfDrops, JobSum, Totals.Plus, DropsIn,
         OverLives, HintedSum;
    HintedCounted1(env, st, v, f);
    var mid := After(env, st, [v]);
    JobLeaves(env, st, v, f);
    DropsWhenIdle(env, st, v, f);
    AddedIs(env, mid, w, f);
    OverLivesNext(env, st, [v], w, f);
    HintedNext(env, [v], w, f);
    JobPackets(w, f);
    PlusPackets(OverLives(env, st, [v], f), JobSum(w, f));
    PlusZero(HintedSum(env, [v], f));
  }

  lemma {:induction false} HintedCounted1(env: Env, st: State, v: Job, f: FlowKey)
    requires PlainEnv(env) && Sound(st) && ClientFlowKey(f) && RegularJob(v) && Hinted(env, v, f)
    ensures OverLives(env, st, [v], f) == HintedSum(env, [v], f)
    ensures After(env, st, [v]) == Sweep(env, MergeJob(env, st, v), v.SweepEpoch())
  {
    hide Sound, RegularJob, Added, Has, Hinted, JobSum, Totals.Plus;
    NothingAfter(env, st);
    AfterNext(env, st, [], v);
    AddedIs(env, st, v, f);
    OverLivesNext(env, st, [], v, f);
    HintedNext(env, [], v, f);
    assert [] + [v] == [v];
  }

  /** Two jobs moved to the front. */
  lemma TwoInFront(jobs: seq<Job>, v: Job, w: Job) returns (rest: seq<Job>)
    requires v in jobs && w in jobs && v != w
    ensures multiset([v] + [w] + rest) == multiset(jobs)
  {
    var i :| 0 <= i < |jobs| && jobs[i] == v;
    TakeOut(jobs, i);
    var others := jobs[..i] + jobs[i + 1..];
    assert w in multiset(jobs);
    assert w in multiset(others);
    var j :| 0 <= j < |others| && others[j] == w;
    TakeOut(others, j);
    rest := others[..j] + others[j + 1..];
  }

  /** Every order of the jobs comes to the same over all lives. */
  ghost predicate AnyLivesOrder(env: Env, st: State, jobs: seq<Job>, f: FlowKey) {
    forall jobs' | multiset(jobs') == multiset(jobs) :: OverLives(env, st, jobs', f) == OverLives(env, st, jobs, f)
  }

  lemma {:induction false} MoreThanHinted(env: Env, st: State, jobs: seq<Job>, f: FlowKey, v: Job, w: Job)
    returns (jobs': seq<Job>)
    requires PlainEnv(env) && Sound(st) && ClientFlowKey(f) && forall u <- jobs :: RegularJob(u) && Dated(u, f)
    requires v in jobs && Has(v, f) && Hinted(env, v, f) && !SelfDrops(env, v, f)
    requires w in jobs && Has(w, f) && !Hinted(env, w, f)
    ensures multiset(jobs') == multiset(jobs) && OverLives(env, st, jobs', f).packets > HintedSum(env, jobs, f).packets
  {
    hide Sound, RegularJob, Dated, Has, Hinted, SelfDrops, OverLives, HintedSum;
    var rest := TwoInFront(jobs, v, w);
    jobs' := [v] + [w] + rest;
    forall u | u in jobs' ensures u in jobs {
      assert u in multiset(jobs');
    }
    UnhintedFollows(env, st, v, w, f);
    HintedCounted(env, st, [v] + [w], rest, f);
    SumTogether(env, [v] + [w], rest, f);
    SumPermutes(env, jobs', jobs, f);
  }

  lemma {:induction false} SumTogether(env: Env, a: seq<Job>, b: seq<Job>, f: FlowKey)
    ensures HintedSum(env, a + b, f).packets == HintedSum(env, a, f).packets + HintedSum(env, b, f).packets
  {
    if b == [] {
      assert a + b == a;
    } else {
      SumTogether(env, a, b[..|b| - 1], f);
      assert (a + b)[..|a + b| - 1] == a + b[..|b| - 1];
    }
  }

  /**
   Over all its lives an untracked connection comes to the same in every order of
   the jobs exactly when every job that holds it is hinted for it, or every
   hinted one drops it again in its own sweep.
   */
  lemma {:induction false} LivesOrderIrrelevant(env: Env, st: State, jobs: seq<Job>, f: FlowKey)
    requires PlainEnv(env) && Sound(st) && ClientFlowKey(f) && f !in st.flowMap
    requires forall w <- jobs :: RegularJob(w) && Dated(w, f)
    ensures AnyLivesOrder(env, st, jobs, f) <==> AllHinted(env, jobs, f) || HintedDrop(env, jobs, f)
    ensures AllHinted(env, jobs, f) || HintedDrop(env, jobs, f) ==>
      OverLives(env, st, jobs, f) == HintedSum(env, jobs, f)
  {
    hide Sound, RegularJob, Dated, Has, Hinted, SelfDrops, OverLives, HintedSum;
    if AllHinted(env, jobs, f) || HintedDrop(env, jobs, f) {
      OnlyHintedCounted(env, st, jobs, f);
      forall jobs' | multiset(jobs') == multiset(jobs)
        ensures OverLives(env, st, jobs', f) == OverLives(env, st, jobs, f)
      {
        forall w ensures w in jobs' <==> w in jobs {
          assert w in multiset(jobs') <==> w in multiset(jobs);
        }
        OnlyHintedCounted(env, st, jobs', f);
        SumPermutes(env, jobs', jobs, f);
      }
    } else {
      var w :| w in jobs && Has(w, f) && !Hinted(env, w, f);
      var v :| v in jobs && Has(v, f) && Hinted(env, v, f) && !SelfDrops(env, v, f);
      var most := MoreThanHinted(env, st, jobs, f, v, w);
      var least := LeastOrder(env, st, jobs, f);
    }
  }

  // ---- a retry after a refused upsert --------------------------------------

  /**
   A refused upsert sends its job back to be parsed and merged again, although
   memory has merged and swept it.  When nothing comes in between, the retry
   counts the connection's packets a second time exactly when the job's own sweep
   has not dropped the session.  Otherwise it starts from zero, under the same key
   if the job had opened the session, or not at all if the job is not hinted.
   */
  lemma RetryAtOnce(env: Env, st: State, w: Job, f: FlowKey)
    requires PlainEnv(env) && Sound(st) && RegularJob(w) && ClientFlowKey(f)
    requires Has(w, f) && (f in st.flowMap || Hinted(env, w, f)) && TotalsOf(st, f).packets >= 0
    ensures var merged := MergeJob(env, st, w);
      var again := MergeJob(env, Sweep(env, merged, w.SweepEpoch()), w);
      var once := JobSum(w, f);
      && TotalsOf(merged, f) == TotalsOf(st, f).Plus(once)
      && (TotalsOf(again, f) == TotalsOf(merged, f).Plus(once) <==> !DropsIn(env, st, w, f))
      && (DropsIn(env, st, w, f) ==>
            && TotalsOf(again, f) == (if Hinted(env, w, f) then once else ZERO)
            && (f in again.flowMap <==> Hinted(env, w, f))
            && (f in again.flowMap && f !in st.flowMap ==> again.flowMap[f] == merged.flowMap[f]))
  {
    hide Merge, Sweep, Sum, Sound, TotalsOf, LastSeenOf, Drops, HintFor, Regular, Holds, FirstOn, LastOn;
    var e, h, evts := env.With(w.matcher), w.parsed.payloadHints, w.parsed.packetEvents;
    var merged := MergeJob(env, st, w);
    MergeTotals(e, h, st, evts, f);
    SweepTotals(env, merged, w.SweepEpoch(), f);
    MergeTotals(e, h, Sweep(env, merged, w.SweepEpoch()), evts, f);
    JobPackets(w, f);
    PlusZero(JobSum(w, f));
  }

  /** No sweep of these jobs drops the connection. */
  ghost predicate Survives(env: Env, st: State, jobs: seq<Job>, f: FlowKey) {
    jobs == [] || (Survives(env, st, jobs[..|jobs| - 1], f)
        && !DropsIn(env, After(env, st, jobs[..|jobs| - 1]), jobs[|jobs| - 1], f))
  }

  lemma {:induction false} SurvivesNext(env: Env, st: State, jobs: seq<Job>, w: Job, f: FlowKey)
    ensures Survives(env, st, jobs + [w], f)
       <==> Survives(env, st, jobs, f) && !DropsIn(env, After(env, st, jobs), w, f)
  {
    assert (jobs + [w])[..|jobs|] == jobs;
  }

  /** What a job and those after it leave of the connection: everything, or no more than the later jobs hold. */
  ghost predicate Left(env: Env, st: State, w: Job, between: seq<Job>, f: FlowKey) {
    var u := After(env, st, [w] + between);
    && Sound(u) && TotalsOf(u, f).packets >= 0
    && if Survives(env, st, [w] + between, f) then
         f in u.flowMap && TotalsOf(u, f) == TotalsOf(st, f).Plus(JobSum(w, f)).Plus(WindowSum(between, f))
       else TotalsOf(u, f).packets <= WindowSum(between, f).packets
  }

  lemma {:induction false} LeftAfter(env: Env, st: State, w: Job, between: seq<Job>, f: FlowKey)
    requires PlainEnv(env) && Sound(st) && ClientFlowKey(f) && forall v <- [w] + between :: RegularJob(v)
    requires Has(w, f) && (f in st.flowMap || Hinted(env, w, f)) && TotalsOf(st, f).packets >= 0
    ensures Left(env, st, w, between, f)
  {
    hide Sound, RegularJob, Left, Has, Hinted, TotalsOf;
    assert w in [w] + between;
    if between == [] {
      LeftAtOnce(env, st, w, f);
    } else {
      var init, v := between[..|between| - 1], between[|between| - 1];
      assert between == init + [v] && [w] + between == ([w] + init) + [v];
      assert v in [w] + between && forall x <- [w] + init :: x in [w] + between;
      LeftAfter(env, st, w, init, f);
      LeftNext(env, st, w, init, v, f);
    }
  }

  lemma {:induction false} LeftAtOnce(env: Env, st: State, w: Job, f: FlowKey)
    requires PlainEnv(env) && Sound(st) && ClientFlowKey(f) && RegularJob(w)
    requires Has(w, f) && (f in st.flowMap || Hinted(env, w, f)) && TotalsOf(st, f).packets >= 0
    ensures Left(env, st, w, [], f)
  {
    hide Sound, RegularJob, After, Has, Hinted, JobSum, Totals.Plus, DropsIn, TotalsOf, WindowSum;
    assert [w] + [] == [] + [w];
    NothingAfter(env, st);
    AfterNext(env, st, [], w);
    SurvivesNext(env, st, [], w, f);
    JobLeaves(env, st, w, f);
    JobCounts(env, st, w, f);
    JobPackets(w, f);
    SumAtLeast([], f);
    PlusZero(TotalsOf(st, f).Plus(JobSum(w, f)));
    PlusPackets(TotalsOf(st, f), JobSum(w, f));
  }

  lemma {:induction false} LeftNext(env: Env, st: State, w: Job, init: seq<Job>, v: Job, f: FlowKey)
    requires PlainEnv(env) && ClientFlowKey(f) && RegularJob(v) && Left(env, st, w, init, f)
    ensures Left(env, st, w, init + [v], f)
  {
    hide Sound, RegularJob, After, Has, Hinted, JobSum, Totals.Plus, DropsIn, TotalsOf, WindowSum, Survives,
         MergeJob, Sweep;
    var jobs, u := [w] + init, After(env, st, [w] + init);
    assert [w] + (init + [v]) == jobs + [v];
    AfterNext(env, st, jobs, v);
    SurvivesNext(env, st, jobs, v, f);
    JobLeaves(env, u, v, f);
    JobCounts(env, u, v, f);
    JobPackets(v, f);
    SumNext(init, v, f);
    SumAtLeast(init, f);
    PlusPackets(WindowSum(init, f), JobSum(v, f));
    PlusPackets(TotalsOf(u, f), JobSum(v, f));
    PlusAssociates(TotalsOf(st, f).Plus(JobSum(w, f)), WindowSum(init, f), JobSum(v, f));
  }

  lemma SumNext(jobs: seq<Job>, w: Job, f: FlowKey)
    ensures WindowSum(jobs + [w], f) == WindowSum(jobs, f).Plus(JobSum(w, f))
  {
    TotalSnoc(jobs, w, OnFlow(f));
  }

  lemma {:induction false} SumAtLeast(jobs: seq<Job>, f: FlowKey)
    ensures WindowSum(jobs, f).packets >= 0 && (jobs == [] ==> WindowSum(jobs, f) == ZERO)
  {
    hide JobSum;
    if jobs != [] {
      SumAtLeast(jobs[..|jobs| - 1], f);
      JobPackets(jobs[|jobs| - 1], f);
    }
  }

  /**
   The retry of a refused job, however much later: with any jobs in between, and
   whatever the matcher and the clock then are, it adds the connection's packets
   to a session that already counts them exactly when no sweep has dropped that
   session since.
   */
  lemma {:induction false} RetryCountsTwice(env: Env, st: State, w: Job, between: seq<Job>, retry: Job, f: FlowKey)
    requires PlainEnv(env) && Sound(st) && ClientFlowKey(f) && (forall v <- [w] + between :: RegularJob(v))
    requires retry.parsed == w.parsed
    requires Has(w, f) && (f in st.flowMap || Hinted(env, w, f)) && TotalsOf(st, f).packets >= 0
    ensures var again, once := MergeJob(env, After(env, st, [w] + between), retry), JobSum(w, f);
      TotalsOf(again, f) == TotalsOf(st, f).Plus(once).Plus(WindowSum(between, f)).Plus(once)
      <==> Survives(env, st, [w] + between, f)
  {
    hide Sound, After, Has, JobSum, Totals.Plus, TotalsOf, WindowSum, Survives, MergeJob, Holds, HintFor,
         Regular, UplinkHints;
    var u, once := After(env, st, [w] + between), JobSum(w, f);
    LeftAfter(env, st, w, between, f);
    assert w in [w] + between;
    SameJob(w, retry, f);
    JobCounts(env, u, retry, f);
    JobPackets(w, f);
    PlusPackets(TotalsOf(u, f), once);
    PlusPackets(TotalsOf(st, f), once);
    PlusPackets(TotalsOf(st, f).Plus(once), WindowSum(between, f));
    PlusPackets(TotalsOf(st, f).Plus(once).Plus(WindowSum(between, f)), once);
  }

  lemma SameJob(w: Job, retry: Job, f: FlowKey)
    requires retry.parsed == w.parsed
    ensures RegularJob(w) ==> RegularJob(retry)
    ensures Has(retry, f) == Has(w, f) && JobSum(retry, f) == JobSum(w, f)
  {
  }
}
