/**
 Request keys over capture windows.  Under the conditions that make windowing
 transparent no session key is registered twice: the windows register what the
 unswept merge of their packets registers, and that merge never takes a key
 again.  So all request keys of all jobs differ.
 */
module WindowKeys {
  import opened Model
  import opened Keys
  import opened Lists
  import opened Tracker
  import opened Indexes
  import opened Windowing
  import opened RequestKeys
  import opened RequestLives

  /** What the jobs ask of the engine: merge, then sweep, one job after the other. */
  function Ops(jobs: seq<Job>): seq<Op> {
    if jobs == [] then []
    else
      var job := jobs[|jobs| - 1];
      Ops(jobs[..|jobs| - 1]) + [MergeOp(job.matcher, job.parsed.payloadHints,
                                         job.parsed.packetEvents)] + [SweepOp(job.SweepEpoch())]
  }

  /** The session keys a job's merge registers. */
  function RegisteredByJob(env: Env, st: State, job: Job): seq<string> {
    Registered(env.With(job.matcher), job.parsed.payloadHints, st, job.parsed.packetEvents)
  }

  lemma {:induction false} OneMoreJob(env: Env, jobs: seq<Job>)
    requires jobs != []
    ensures var init, job := jobs[..|jobs| - 1], jobs[|jobs| - 1];
      var st := Run(env, EMPTY, Ops(init));
      && Run(env, EMPTY, Ops(jobs))
         == Sweep(env, MergeJob(env, st, job), job.SweepEpoch())
      && RunKeys(env, [], Ops(jobs))
         == RunKeys(env, [], Ops(init)) + RegisteredByJob(env, st, job)
  {
    hide Merge, Sweep, Registered;
    var init, job := jobs[..|jobs| - 1], jobs[|jobs| - 1];
    var m, s := MergeOp(job.matcher, job.parsed.payloadHints, job.parsed.packetEvents), SweepOp(job.SweepEpoch());
    var a, b := Ops(init) + [m], Ops(init) + [m] + [s];
    assert a[..|a| - 1] == Ops(init) && b[..|b| - 1] == a;
    assert Run(env, EMPTY, a) == Apply(env, Run(env, EMPTY, Ops(init)), m);
    assert Run(env, EMPTY, b) == Apply(env, Run(env, EMPTY, a), s);
    assert RunKeys(env, [], a) == RunKeys(env, [], Ops(init)) + RegisteredByJob(env, Run(env, EMPTY, Ops(init)), job);
    assert RunKeys(env, [], b) == RunKeys(env, [], a);
  }

  /** The run of the jobs' requests is what the writer does with the jobs. */
  lemma {:induction false} RunsJobs(env: Env, jobs: seq<Job>)
    ensures Run(env, EMPTY, Ops(jobs)) == ProcessJobs(env, START, jobs).live
  {
    hide Merge, Sweep, RunKeys, Registered;
    if jobs != [] {
      RunsJobs(env, jobs[..|jobs| - 1]);
      OneMoreJob(env, jobs);
    }
  }

  // ---- windows register what the whole stream registers ---------------------

  function ToldRegisters(env: Env, st: State, x: Told): seq<string> {
    RegisteredBy(env.With(x.matcher), x.hints, st, x.evt)
  }

  lemma RegistersWithout(env: Env, u: State, dead: set<string>, x: Told)
    requires Inv(u) && Spares(u, dead, x.evt)
    ensures ToldRegisters(env, Without(u, dead), x) == ToldRegisters(env, u, x)
  {
    hide LookupHint, Without, Inv;
    if x.evt.protocol.Tcp? {
      FindWithout(u, dead, x.evt.Flow());
    }
  }

  lemma WindowStepRegisters(env: Env, stream: seq<Told>, j: nat, dead: set<string>, sweep: real)
    requires PlainEnv(env) && PositiveEpochs(stream) && SmallGaps(env, stream)
    requires j < |stream| && sweep <= stream[j].evt.epoch && Dead(env, Merged(env, stream, j), dead, sweep)
    ensures ToldRegisters(env, Without(Merged(env, stream, j), dead), stream[j])
         == ToldRegisters(env, Merged(env, stream, j), stream[j])
  {
    hide Merged, Without, SmallGaps, ToldRegisters;
    MergedGood(env, stream, j);
    GapsSpareDead(env, Merged(env, stream, j), stream, j, dead, sweep);
    RegistersWithout(env, Merged(env, stream, j), dead, stream[j]);
  }

  /** The session keys that the unswept merge of the first `n` packets registers. */
  function KeysUpTo(env: Env, stream: seq<Told>, n: nat): seq<string>
    requires n <= |stream|
  {
    if n == 0 then [] else KeysUpTo(env, stream, n - 1) + ToldRegisters(env, Merged(env, stream, n - 1), stream[n - 1])
  }

  lemma {:induction false} WindowRegisters(env: Env, matcher: Matcher, h: map<FlowKey, string>,
                    stream: seq<Told>, n: nat, evts: seq<PacketEvent>, dead: set<string>, sweep: real)
    requires PlainEnv(env) && PositiveEpochs(stream) && SmallGaps(env, stream)
    requires WindowAt(stream, n, TellAll(matcher, h, evts), sweep)
    requires Dead(env, Merged(env, stream, n), dead, sweep)
    ensures KeysUpTo(env, stream, n) + Registered(env.With(matcher), h, Without(Merged(env, stream, n), dead), evts)
         == KeysUpTo(env, stream, n + |evts|)
  {
    hide Step, Without, Good, SmallGaps, RegisteredBy, Merged, KeysUpTo, Registered, Dead;
    if evts == [] {
      NoneRegistered(env.With(matcher), h, Without(Merged(env, stream, n), dead));
    } else {
      var m := |evts| - 1;
      var j := n + m;
      PrefixAt(matcher, h, stream, n, evts, sweep);
      WindowRegisters(env, matcher, h, stream, n, evts[..m], dead, sweep);
      MergeWindow(env, matcher, h, stream, n, evts[..m], dead, sweep);
      DeadKept(env, Merged(env, stream, n), Merged(env, stream, j), dead, sweep);
      WindowStepRegisters(env, stream, j, dead, sweep);
      KeysNext(env, stream, j);
      RegisteredNext(env.With(matcher), h, Without(Merged(env, stream, n), dead), evts);
    }
  }

  lemma KeysNext(env: Env, stream: seq<Told>, n: nat)
    requires n < |stream|
    ensures KeysUpTo(env, stream, n + 1)
       == KeysUpTo(env, stream, n) + ToldRegisters(env, Merged(env, stream, n), stream[n])
  {
  }

  lemma {:induction false} NoneRegistered(env: Env, h: map<FlowKey, string>, st: State)
    ensures Registered(env, h, st, []) == []
  {
  }

  lemma {:induction false} RegisteredNext(env: Env, h: map<FlowKey, string>, st: State, evts: seq<PacketEvent>)
    requires evts != []
    ensures var init, p := evts[..|evts| - 1], evts[|evts| - 1];
      Registered(env, h, st, evts) == Registered(env, h, st, init) + RegisteredBy(env, h, Merge(env, h, st, init), p)
  {
  }

  /** The n-th window registers its stretch of the whole stream's keys. */
  lemma {:induction false} NextWindowRegisters(env: Env, jobs: seq<Job>, n: nat)
    requires PlainEnv(env) && PositiveEpochs(Stream(jobs)) && SmallGaps(env, Stream(jobs)) && SweepsInOrder(jobs)
    requires 0 < n <= |jobs|
    ensures var a, job := |Stream(jobs[..n - 1])|, jobs[n - 1];
      && |Stream(jobs[..n])| == a + |job.parsed.packetEvents| <= |Stream(jobs)|
      && KeysUpTo(env, Stream(jobs), a) + RegisteredByJob(env, ProcessJobs(env, START, jobs[..n - 1]).live, job)
         == KeysUpTo(env, Stream(jobs), a + |job.parsed.packetEvents|)
  {
    hide Merge, Merged, Without, SmallGaps, WindowAt, SweepsInOrder, Rows, ProcessJobs, KeysUpTo, Registered, Stream;
    var a, job := |Stream(jobs[..n - 1])|, jobs[n - 1];
    WindowStretch(jobs, n);
    var sweep := SweptAt(env, jobs, n);
    WindowRegisters(env, job.matcher, job.parsed.payloadHints, Stream(jobs), a, job.parsed.packetEvents,
                    IdleKeys(env, Merged(env, Stream(jobs), a), sweep), sweep);
  }

  lemma {:induction false} WindowsRegister(env: Env, jobs: seq<Job>, n: nat)
    requires PlainEnv(env) && PositiveEpochs(Stream(jobs)) && SmallGaps(env, Stream(jobs)) && SweepsInOrder(jobs)
    requires n <= |jobs|
    ensures |Stream(jobs[..n])| <= |Stream(jobs)|
    ensures RunKeys(env, [], Ops(jobs[..n])) == KeysUpTo(env, Stream(jobs), |Stream(jobs[..n])|)
  {
    hide Merge, Run, SmallGaps, SweepsInOrder, PositiveEpochs, ProcessJobs, KeysUpTo, RunKeys, Ops,
         RegisteredByJob, Stream;
    if n == 0 {
      NothingRegistered(env, jobs);
    } else {
      WindowsRegister(env, jobs, n - 1);
      NextWindowRegisters(env, jobs, n);
      assert jobs[..n][..n - 1] == jobs[..n - 1] && jobs[..n][n - 1] == jobs[n - 1];
      OneMoreJob(env, jobs[..n]);
      RunsJobs(env, jobs[..n - 1]);
    }
  }

  lemma NothingRegistered(env: Env, jobs: seq<Job>)
    ensures |Stream(jobs[..0])| <= |Stream(jobs)|
    ensures RunKeys(env, [], Ops(jobs[..0])) == KeysUpTo(env, Stream(jobs), |Stream(jobs[..0])|)
  {
    assert jobs[..0] == [];
  }

  /** Before the n-th window: when the last sweep was, and what it left. */
  lemma {:induction false} SweptAt(env: Env, jobs: seq<Job>, n: nat) returns (sweep: real)
    requires PlainEnv(env) && PositiveEpochs(Stream(jobs)) && SmallGaps(env, Stream(jobs)) && SweepsInOrder(jobs)
    requires 0 < n <= |jobs|
    ensures SoFar(env, jobs, n - 1, sweep)
    ensures WindowAt(Stream(jobs), |Stream(jobs[..n - 1])|, TellJob(jobs[n - 1]), sweep)
  {
    hide Merged, Without, SmallGaps, WindowAt, Rows, SoFar, Stream;
    sweep := if n == 1 then 0.0 else jobs[n - 2].SweepEpoch();
    if n == 1 {
      NoWindowYet(env, jobs, sweep);
    } else {
      WindowsSoFar(env, jobs, n - 1);
    }
    NextWindowAt(jobs, n, sweep);
  }

  // ---- one merge registers no key twice -------------------------------------

  predicate AllOf(keys: seq<string>, sessions: map<string, SessionView>) {
    (forall k <- keys :: k in sessions) && (forall k <- sessions :: k in keys)
  }

  lemma RegistersNew(env: Env, hints: map<FlowKey, string>, st: State, evt: PacketEvent, keys: seq<string>)
    requires PlainEnv(env) && PlainPacket(evt) && Inv(st) && Unshared(st) && Distinct(keys) && AllOf(keys, st.sessions)
    ensures var keys' := keys + RegisteredBy(env, hints, st, evt);
      Distinct(keys') && AllOf(keys', Step(env, hints, st, evt).sessions)
  {
    hide LookupHint, SessionKeyText, Inv, Unshared, Touch;
    if Registers(env, hints, st, evt) {
      RegisterKeepsUnshared(env, st, evt, LookupHint(env, hints, evt));
    } else {
      assert keys + [] == keys;
    }
  }

  lemma {:induction false} MergeRegistersOnce(env: Env, stream: seq<Told>, n: nat)
    requires n <= |stream| && PlainEnv(env) && PositiveEpochs(stream)
    ensures Distinct(KeysUpTo(env, stream, n))
    ensures AllOf(KeysUpTo(env, stream, n), Merged(env, stream, n).sessions)
  {
    hide Step, RegisteredBy, Merged, Inv, Unshared, AllOf, Distinct, Fresh;
    if n == 0 {
      NoKeysYet(env, stream);
    } else {
      var x := stream[n - 1];
      MergeRegistersOnce(env, stream, n - 1);
      MergedGood(env, stream, n - 1);
      MergedNext(env, stream, n - 1);
      RegistersNew(env.With(x.matcher), x.hints, Merged(env, stream, n - 1), x.evt, KeysUpTo(env, stream, n - 1));
    }
  }

  lemma {:induction false} NoKeysYet(env: Env, stream: seq<Told>)
    ensures Distinct(KeysUpTo(env, stream, 0)) && AllOf(KeysUpTo(env, stream, 0), Merged(env, stream, 0).sessions)
  {
  }

  /**
   Windows swept in order over a stream with small gaps register no session key
   twice, whatever their hints and matchers, and no two of their requests carry
   one key.
   */
  lemma {:induction false} WindowKeysDistinct(env: Env, jobs: seq<Job>)
    requires PlainEnv(env) && PositiveEpochs(Stream(jobs)) && SmallGaps(env, Stream(jobs)) && SweepsInOrder(jobs)
    ensures Distinct(RunKeys(env, [], Ops(jobs)))
    ensures !KeyRepeats(RunEmitted(env, [], Ops(jobs)))
  {
    hide Merged, SmallGaps, SweepsInOrder, RunKeys, RunEmitted, KeyRepeats, Ops, Stream, KeysUpTo, Distinct;
    assert jobs[..|jobs|] == jobs;
    WindowsRegister(env, jobs, |jobs|);
    MergeRegistersOnce(env, Stream(jobs), |Stream(jobs)|);
    RunKeysDistinct(env, [], Ops(jobs));
  }
}
