/**
 Cutting a packet stream into capture windows does not change what is recorded:
 merging window by window, with an idle sweep after each, ends with the same
 live sessions, the same expired sessions and the same indexes as one unswept
 merge and one sweep at the end.  Each window brings its own hints, and the
 matcher may be replaced between windows.
 */
module Windowing {
  import opened Model
  import opened Keys
  import opened Tracker
  import opened Indexes

  /** One parse result handed to the writer, what its clock shows at that moment, and the matcher then in force. */
  datatype Job = Job(parsed: ParseResult, wallClock: real, matcher: Matcher) {
    /** The sweep epoch: the last packet's, or the wall clock when the file was empty. */
    function SweepEpoch(): real {
      if parsed.lastEpoch == 0.0 then wallClock else parsed.lastEpoch
    }
  }

  /** The state after a job's merge, before its sweep. */
  function MergeJob(env: Env, st: State, job: Job): State {
    Merge(env.With(job.matcher), job.parsed.payloadHints, st, job.parsed.packetEvents)
  }

  datatype Outcome = Outcome(live: State, expired: map<string, SessionView>)

  const START: Outcome := Outcome(EMPTY, map[])

  ghost function ProcessJob(env: Env, o: Outcome, job: Job): Outcome {
    var merged := MergeJob(env, o.live, job);
    Outcome(Sweep(env, merged, job.SweepEpoch()), o.expired + Expired(env, merged, job.SweepEpoch()))
  }

  ghost function ProcessJobs(env: Env, o: Outcome, jobs: seq<Job>): Outcome {
    if jobs == [] then o
    else ProcessJob(env, ProcessJobs(env, o, jobs[..|jobs| - 1]), jobs[|jobs| - 1])
  }

  /** A packet of the stream, with the matcher and the hints it is merged with. */
  datatype Told = Told(matcher: Matcher, hints: map<FlowKey, string>, evt: PacketEvent) {
    function Hint(env: Env): Hint {
      LookupHint(env.With(matcher), hints, evt)
    }
  }

  function TellAll(matcher: Matcher, hints: map<FlowKey, string>, evts: seq<PacketEvent>): seq<Told> {
    seq(|evts|, i requires 0 <= i < |evts| => Told(matcher, hints, evts[i]))
  }

  function TellJob(job: Job): seq<Told> {
    TellAll(job.matcher, job.parsed.payloadHints, job.parsed.packetEvents)
  }

  function Stream(jobs: seq<Job>): seq<Told> {
    if jobs == [] then [] else Stream(jobs[..|jobs| - 1]) + TellJob(jobs[|jobs| - 1])
  }

  function Packets(stream: seq<Told>): seq<PacketEvent> {
    seq(|stream|, i requires 0 <= i < |stream| => stream[i].evt)
  }

  function StepTold(env: Env, st: State, x: Told): State {
    Step(env.With(x.matcher), x.hints, st, x.evt)
  }

  /** The state after a stream, when nothing is ever swept. */
  function Unswept(env: Env, stream: seq<Told>): State {
    if stream == [] then EMPTY
    else StepTold(env, Unswept(env, stream[..|stream| - 1]), stream[|stream| - 1])
  }

  /** What one sweep makes of an unswept state. */
  ghost function SweptOnce(env: Env, u: State, epoch: real): Outcome {
    Outcome(Sweep(env, u, epoch), Expired(env, u, epoch))
  }

  /** A TCP packet of the connection of `f`. */
  predicate OnConnection(p: PacketEvent, f: FlowKey) {
    p.protocol.Tcp? && SamePair(f, p.Flow())
  }

  /** Packet `i` is the last one of the connection before position `j`. */
  predicate Latest(stream: seq<Told>, j: nat, f: FlowKey, i: int) {
    0 <= i < j <= |stream| && OnConnection(stream[i].evt, f) && forall m | i < m < j :: !OnConnection(stream[m].evt, f)
  }

  /** Consecutive TCP packets of one connection are less than the idle limit apart. */
  predicate SmallGaps(env: Env, stream: seq<Told>) {
    forall i, j | 0 <= i < j < |stream| && stream[j].evt.protocol.Tcp? && Latest(stream, j, stream[j].evt.Flow(), i) ::
      stream[j].evt.epoch - stream[i].evt.epoch < env.idleSeconds as real
  }

  /** The state after the first `n` packets of the stream, when nothing is ever swept. */
  function Merged(env: Env, stream: seq<Told>, n: nat): State
    requires n <= |stream|
  {
    Unswept(env, stream[..n])
  }

  /**
   Each sweep happens at a positive epoch, no earlier than the last one and no
   later than the next window's packets.
   */
  predicate SweepsInOrder(jobs: seq<Job>) {
    && (forall i | 0 <= i < |jobs| :: jobs[i].SweepEpoch() > 0.0)
    && (forall i | 0 < i < |jobs| :: jobs[i - 1].SweepEpoch() <= jobs[i].SweepEpoch())
    && (forall i, p | 0 < i < |jobs| && p in jobs[i].parsed.packetEvents :: jobs[i - 1].SweepEpoch() <= p.epoch)
  }

  predicate PositiveEpochs(stream: seq<Told>) {
    forall i | 0 <= i < |stream| :: stream[i].evt.epoch > 0.0 && PlainPacket(stream[i].evt)
  }

  // ---- one packet: the dead sessions do not matter ------------------------

  /** A state without the sessions in `dead` and without their bindings. */
  function Without(st: State, dead: set<string>): State {
    State(st.sessions - dead,
          st.flowMap - (set f | f in st.flowMap && st.flowMap[f] in dead),
          st.revMap - (set f | f in st.revMap && st.revMap[f] in dead))
  }

  lemma FindPair(st: State, f: FlowKey)
    requires Inv(st) && Find(st, f) != ""
    ensures Find(st, f) in st.sessions && SamePair(st.sessions[Find(st, f)].id.flow, f)
  {
    if Get(st.flowMap, f) == "" {
      assert f.Reverse() in st.flowMap;
    }
  }

  lemma FindWithout(st: State, dead: set<string>, f: FlowKey)
    requires Inv(st)
    requires forall k | k in dead && k in st.sessions :: !SamePair(st.sessions[k].id.flow, f)
    ensures Find(Without(st, dead), f) == Find(st, f)
  {
    if f in st.flowMap {
      assert st.flowMap[f] !in dead;
    }
    if f in st.revMap {
      assert f.Reverse() in st.flowMap;
      assert st.revMap[f] !in dead;
    }
  }

  lemma BindWithout(st: State, dead: set<string>, s: SessionView)
    requires s.id.sessionKey !in dead
    ensures Bind(Without(st, dead), s) == Without(Bind(st, s), dead)
  {
    var k, a, b := s.id.sessionKey, Without(st, dead), Without(Bind(st, s), dead);
    assert Bind(a, s).sessions == b.sessions;
    UpdateWithout(st.flowMap, dead, s.id.flow, k);
    UpdateWithout(st.revMap, dead, s.id.flow.Reverse(), k);
  }

  lemma UpdateWithout(m: map<FlowKey, string>, dead: set<string>, f: FlowKey, k: string)
    requires k !in dead
    ensures var m' := m[f := k];
      (m - (set g | g in m && m[g] in dead))[f := k] == m' - (set g | g in m' && m'[g] in dead)
  {
  }

  lemma TouchWithout(st: State, dead: set<string>, key: string, s: SessionView)
    requires key in st.sessions && key !in dead
    ensures Without(st, dead).(sessions := Without(st, dead).sessions[key := s])
         == Without(st.(sessions := st.sessions[key := s]), dead)
  {
    var a := Without(st, dead).(sessions := Without(st, dead).sessions[key := s]);
    var b := Without(st.(sessions := st.sessions[key := s]), dead);
    assert a.sessions == b.sessions && a.flowMap == b.flowMap && a.revMap == b.revMap;
  }

  /** No dead session is on the packet's connection. */
  predicate Spares(st: State, dead: set<string>, evt: PacketEvent) {
    dead <= st.sessions.Keys && forall k <- dead :: !OnConnection(evt, st.sessions[k].id.flow)
  }

  lemma RegisterWithout(env: Env, hints: map<FlowKey, string>, st: State, dead: set<string>, evt: PacketEvent)
    requires PlainEnv(env) && PlainPacket(evt) && Inv(st) && Unshared(st) && Spares(st, dead, evt)
    ensures FindOrRegister(env, hints, Without(st, dead), evt) == Without(FindOrRegister(env, hints, st, evt), dead)
    ensures var st' := FindOrRegister(env, hints, st, evt);
      Spares(st', dead, evt) && forall k <- dead :: st'.sessions[k] == st.sessions[k]
  {
    if evt.protocol.Tcp? {
      FindWithout(st, dead, evt.Flow());
    }
    if Registers(env, hints, st, evt) {
      var hint := LookupHint(env, hints, evt);
      RegisterKeepsUnshared(env, st, evt, hint);
      BindWithout(st, dead, NewSession(env, evt, hint));
    }
  }

  /** A packet of none of the dead connections does the same with and without them, and leaves them alone. */
  lemma StepWithout(env: Env, hints: map<FlowKey, string>, st: State, dead: set<string>, evt: PacketEvent)
    requires PlainEnv(env) && PlainPacket(evt) && Inv(st) && Unshared(st) && Spares(st, dead, evt)
    ensures Step(env, hints, Without(st, dead), evt) == Without(Step(env, hints, st, evt), dead)
    ensures dead <= Step(env, hints, st, evt).sessions.Keys
    ensures forall k <- dead :: Step(env, hints, st, evt).sessions[k] == st.sessions[k]
  {
    RegisterWithout(env, hints, st, dead, evt);
    if evt.protocol.Tcp? {
      TargetAlive(env, hints, st, dead, evt);
      var key := Target(env, hints, st, evt);
      var st' := FindOrRegister(env, hints, st, evt);
      if key != "" {
        TouchWithout(st', dead, key, Touch(st'.sessions[key], evt));
      }
    }
  }

  lemma TargetAlive(env: Env, hints: map<FlowKey, string>, st: State, dead: set<string>, evt: PacketEvent)
    requires PlainEnv(env) && PlainPacket(evt) && Inv(st) && Unshared(st)
    requires evt.protocol.Tcp? && Spares(st, dead, evt)
    ensures Target(env, hints, Without(st, dead), evt) == Target(env, hints, st, evt)
    ensures Target(env, hints, st, evt) in dead ==> Target(env, hints, st, evt) == ""
  {
    hide LookupHint, SessionKeyText, Inv, Unshared;
    FindWithout(st, dead, evt.Flow());
    if Registers(env, hints, st, evt) {
      RegisterKeepsUnshared(env, st, evt, LookupHint(env, hints, evt));
    } else if Find(st, evt.Flow()) != "" {
      FindPair(st, evt.Flow());
    }
  }

  // ---- last-seen epochs ---------------------------------------------------

  /** Each live session was last seen at the epoch of the latest packet of its connection. */
  predicate Fresh(st: State, stream: seq<Told>, j: nat) {
    forall k <- st.sessions :: LastSeenAt(stream, j, st.sessions[k])
  }

  predicate LastSeenAt(stream: seq<Told>, j: nat, s: SessionView) {
    exists i | 0 <= i < j :: Latest(stream, j, s.id.flow, i) && stream[i].evt.epoch == s.lastSeenEpoch
  }

  /** A TCP packet reaches the live session of its connection, if there is one. */
  lemma TargetIsOwner(env: Env, hints: map<FlowKey, string>, st: State, evt: PacketEvent, k: string)
    requires PlainEnv(env) && PlainPacket(evt) && Inv(st) && Unshared(st)
    requires k in st.sessions && OnConnection(evt, st.sessions[k].id.flow)
    ensures Target(env, hints, st, evt) == k && FindOrRegister(env, hints, st, evt) == st
  {
    FindIsScan(st, evt.Flow());
    assert k in Scan(st, evt.Flow());
  }

  lemma LatestExtends(stream: seq<Told>, j: nat, f: FlowKey, i: int)
    requires j < |stream| && Latest(stream, j, f, i) && !OnConnection(stream[j].evt, f)
    ensures Latest(stream, j + 1, f, i)
  {
  }

  lemma StepFresh(env: Env, hints: map<FlowKey, string>, st: State, stream: seq<Told>, j: nat)
    requires PlainEnv(env) && Inv(st) && Unshared(st)
    requires j < |stream| && PlainPacket(stream[j].evt) && Fresh(st, stream, j)
    ensures Fresh(Step(env, hints, st, stream[j].evt), stream, j + 1)
  {
    var evt := stream[j].evt;
    var st', key := FindOrRegister(env, hints, st, evt), Target(env, hints, st, evt);
    var after := Step(env, hints, st, evt);
    forall k <- after.sessions ensures LastSeenAt(stream, j + 1, after.sessions[k]) {
      if k == key {
        TargetOn(env, hints, st, evt);
        assert Latest(stream, j + 1, after.sessions[k].id.flow, j);
      } else {
        UntouchedSession(env, hints, st, evt, k);
        var i :| Latest(stream, j, st.sessions[k].id.flow, i) && stream[i].evt.epoch == st.sessions[k].lastSeenEpoch;
        assert !OnConnection(evt, st.sessions[k].id.flow) by {
          if OnConnection(evt, st.sessions[k].id.flow) {
            TargetIsOwner(env, hints, st, evt, k);
          }
        }
        LatestExtends(stream, j, st.sessions[k].id.flow, i);
        assert Latest(stream, j + 1, after.sessions[k].id.flow, i);
      }
    }
  }

  lemma TargetOn(env: Env, hints: map<FlowKey, string>, st: State, evt: PacketEvent)
    requires PlainEnv(env) && PlainPacket(evt) && Inv(st)
    requires Target(env, hints, st, evt) != ""
    ensures Target(env, hints, st, evt) in Step(env, hints, st, evt).sessions
    ensures var s := Step(env, hints, st, evt).sessions[Target(env, hints, st, evt)];
            OnConnection(evt, s.id.flow) && s.lastSeenEpoch == evt.epoch
  {
    if !Registers(env, hints, st, evt) {
      FindPair(st, evt.Flow());
    }
  }

  lemma UntouchedSession(env: Env, hints: map<FlowKey, string>, st: State, evt: PacketEvent, k: string)
    requires PlainEnv(env) && PlainPacket(evt) && Inv(st)
    requires k in Step(env, hints, st, evt).sessions && k != Target(env, hints, st, evt)
    ensures k in st.sessions && Step(env, hints, st, evt).sessions[k] == st.sessions[k]
  {
    if Registers(env, hints, st, evt) {
      NewSessionPrinted(env, evt, LookupHint(env, hints, evt));
    }
  }

  // ---- one window ---------------------------------------------------------

  /** The sessions swept so far, in the state `u` that never sweeps: each idle at the last sweep epoch. */
  predicate Dead(env: Env, u: State, dead: set<string>, sweep: real) {
    dead <= u.sessions.Keys && forall k <- dead :: Idle(env, u.sessions[k], sweep)
  }

  /** What is known of the unswept state after `j` packets of the stream. */
  ghost predicate Good(env: Env, u: State, stream: seq<Told>, j: nat) {
    Inv(u) && Unshared(u) && Fresh(u, stream, j)
  }

  /** A packet after the sweep is on no dead connection: the gap would have been too long. */
  lemma GapsSpareDead(env: Env, u: State, stream: seq<Told>, j: nat, dead: set<string>, sweep: real)
    requires j < |stream| && PositiveEpochs(stream) && SmallGaps(env, stream)
    requires Fresh(u, stream, j) && Dead(env, u, dead, sweep) && sweep <= stream[j].evt.epoch
    ensures Spares(u, dead, stream[j].evt)
  {
    forall k <- dead ensures !OnConnection(stream[j].evt, u.sessions[k].id.flow) {
      var s := u.sessions[k];
      assert LastSeenAt(stream, j, s);
      var i :| 0 <= i < j && Latest(stream, j, s.id.flow, i) && stream[i].evt.epoch == s.lastSeenEpoch;
      if OnConnection(stream[j].evt, s.id.flow) {
        LatestSamePair(stream, j, s.id.flow, stream[j].evt.Flow(), i);
      }
    }
  }

  lemma LatestSamePair(stream: seq<Told>, j: nat, f: FlowKey, g: FlowKey, i: int)
    requires Latest(stream, j, f, i) && SamePair(f, g)
    ensures Latest(stream, j, g, i)
  {
    assert f == g || f == g.Reverse();
    forall p: PacketEvent ensures OnConnection(p, f) == OnConnection(p, g) {
    }
  }

  lemma MergedNext(env: Env, stream: seq<Told>, n: nat)
    requires n < |stream|
    ensures Merged(env, stream, n + 1) == StepTold(env, Merged(env, stream, n), stream[n])
  {
    assert stream[..n + 1][..n] == stream[..n];
  }

  lemma {:induction false} MergedGood(env: Env, stream: seq<Told>, n: nat)
    requires n <= |stream| && PlainEnv(env) && PositiveEpochs(stream)
    ensures Good(env, Merged(env, stream, n), stream, n)
  {
    if n > 0 {
      MergedGood(env, stream, n - 1);
      MergedNext(env, stream, n - 1);
      var u, x := Merged(env, stream, n - 1), stream[n - 1];
      StepKeepsInv(env.With(x.matcher), x.hints, u, x.evt);
      StepKeepsUnshared(env.With(x.matcher), x.hints, u, x.evt);
      StepFresh(env.With(x.matcher), x.hints, u, stream, n - 1);
    }
  }

  /** One packet of the stream, in the unswept state and in the swept one. */
  lemma WindowStep(env: Env, stream: seq<Told>, j: nat, dead: set<string>, sweep: real)
    requires j < |stream| && PlainEnv(env) && PositiveEpochs(stream) && SmallGaps(env, stream)
    requires sweep <= stream[j].evt.epoch && Dead(env, Merged(env, stream, j), dead, sweep)
    ensures var u, u' := Merged(env, stream, j), Merged(env, stream, j + 1);
      && StepTold(env, Without(u, dead), stream[j]) == Without(u', dead)
      && Kept(u, u', dead)
  {
    hide Merged, SmallGaps, LookupHint, Without, Step, Inv;
    var u, x := Merged(env, stream, j), stream[j];
    MergedGood(env, stream, j);
    MergedNext(env, stream, j);
    GapsSpareDead(env, u, stream, j, dead, sweep);
    StepWithout(env.With(x.matcher), x.hints, u, dead, x.evt);
  }

  /** The dead sessions are unchanged from one state to the other. */
  predicate Kept(u: State, u': State, dead: set<string>) {
    dead <= u.sessions.Keys && dead <= u'.sessions.Keys && forall k <- dead :: u'.sessions[k] == u.sessions[k]
  }

  /** The packets from position `n` of the stream are these, and none is earlier than the last sweep. */
  ghost predicate WindowAt(stream: seq<Told>, n: nat, xs: seq<Told>, sweep: real) {
    && n + |xs| <= |stream| && stream[n..n + |xs|] == xs
    && forall j: nat | n <= j < n + |xs| :: sweep <= stream[j].evt.epoch
  }

  /** All but the last packet of a window are a window too. */
  lemma PrefixAt(matcher: Matcher, h: map<FlowKey, string>, stream: seq<Told>, n: nat, evts: seq<PacketEvent>,
                 sweep: real)
    requires WindowAt(stream, n, TellAll(matcher, h, evts), sweep) && evts != []
    ensures WindowAt(stream, n, TellAll(matcher, h, evts[..|evts| - 1]), sweep)
    ensures n + |evts| <= |stream| && stream[n + |evts| - 1] == Told(matcher, h, evts[|evts| - 1])
    ensures sweep <= evts[|evts| - 1].epoch
  {
    var m, xs := |evts| - 1, TellAll(matcher, h, evts);
    assert xs[m] == stream[n..n + |evts|][m] == stream[n + m];
    assert TellAll(matcher, h, evts[..m]) == xs[..m] == stream[n..n + m];
  }

  /** Merging a window into the swept state gives the unswept state without the dead sessions. */
  lemma {:induction false} MergeWindow(env: Env, matcher: Matcher, h: map<FlowKey, string>,
                    stream: seq<Told>, n: nat, evts: seq<PacketEvent>, dead: set<string>, sweep: real)
    requires PlainEnv(env) && PositiveEpochs(stream) && SmallGaps(env, stream)
    requires WindowAt(stream, n, TellAll(matcher, h, evts), sweep)
    requires Dead(env, Merged(env, stream, n), dead, sweep)
    ensures var u, u' := Merged(env, stream, n), Merged(env, stream, n + |evts|);
      && Merge(env.With(matcher), h, Without(u, dead), evts) == Without(u', dead)
      && Kept(u, u', dead)
  {
    hide Step, Without, Good, SmallGaps, Merged, WindowAt, Idle;
    if evts != [] {
      var m := |evts| - 1;
      var j := n + m;
      PrefixAt(matcher, h, stream, n, evts, sweep);
      MergeWindow(env, matcher, h, stream, n, evts[..m], dead, sweep);
      DeadKept(env, Merged(env, stream, n), Merged(env, stream, j), dead, sweep);
      WindowStep(env, stream, j, dead, sweep);
    }
  }

  lemma DeadKept(env: Env, u: State, u': State, dead: set<string>, sweep: real)
    requires Dead(env, u, dead, sweep) && Kept(u, u', dead)
    ensures Dead(env, u', dead, sweep) && Rows(u, dead) == Rows(u', dead)
  {
    assert forall k <- dead :: Idle(env, u'.sessions[k], sweep);
  }

  // ---- one sweep ----------------------------------------------------------

  /** The expired rows of a set of swept sessions. */
  ghost function Rows(u: State, dead: set<string>): map<string, SessionView> {
    CloseAll(u.sessions, dead)
  }

  lemma WithoutKeepsInv(u: State, dead: set<string>)
    requires Inv(u)
    ensures Inv(Without(u, dead))
  {
    var st := Without(u, dead);
    assert Mirrored(st);
    assert BindingsLive(st);
    assert Keyed(st);
  }

  lemma IdleLater(env: Env, s: SessionView, sweep: real, epoch: real)
    requires Idle(env, s, sweep) && sweep <= epoch
    ensures Idle(env, s, epoch)
  {
  }

  /** Sweeping the swept state again is sweeping the unswept state once. */
  lemma SweepWithout(env: Env, u: State, dead: set<string>, sweep: real, epoch: real)
    requires Inv(u) && Dead(env, u, dead, sweep) && sweep <= epoch
    ensures Sweep(env, Without(u, dead), epoch) == Without(u, IdleKeys(env, u, epoch))
    ensures Rows(u, dead) + Expired(env, Without(u, dead), epoch) == Rows(u, IdleKeys(env, u, epoch))
    ensures Dead(env, u, IdleKeys(env, u, epoch), epoch)
  {
    hide Sweep, Inv;
    forall k <- dead ensures k in IdleKeys(env, u, epoch) {
      IdleLater(env, u.sessions[k], sweep, epoch);
    }
    SweepRestricted(env, u, dead, IdleKeys(env, u, epoch), epoch);
    RowsTogether(env, u, dead, epoch);
  }

  lemma RowsTogether(env: Env, u: State, dead: set<string>, epoch: real)
    requires dead <= IdleKeys(env, u, epoch)
    ensures Rows(u, dead) + Expired(env, Without(u, dead), epoch) == Rows(u, IdleKeys(env, u, epoch))
  {
    hide CloseAll, Idle;
    var idle := IdleKeys(env, u, epoch);
    assert IdleKeys(env, Without(u, dead), epoch) == idle - dead;
  }

  lemma SweepRestricted(env: Env, u: State, dead: set<string>, idle: set<string>, epoch: real)
    requires Inv(u) && dead <= idle == IdleKeys(env, u, epoch)
    ensures Sweep(env, Without(u, dead), epoch) == Without(u, idle)
  {
    var w := Without(u, dead);
    WithoutKeepsInv(u, dead);
    assert forall k <- w.sessions :: Idle(env, w.sessions[k], epoch) <==> k in idle;
    SweepIs(env, w, epoch, idle);
    assert Without(w, idle) == Without(u, idle) by {
      WithoutTwice(u, dead, idle);
    }
  }

  lemma WithoutTwice(u: State, dead: set<string>, idle: set<string>)
    requires dead <= idle
    ensures Without(Without(u, dead), idle) == Without(u, idle)
  {
    var a, b := Without(Without(u, dead), idle), Without(u, idle);
    assert a.sessions == b.sessions;
    assert a.flowMap == b.flowMap;
    assert a.revMap == b.revMap;
  }

  lemma SweepIs(env: Env, w: State, epoch: real, idle: set<string>)
    requires Inv(w)
    requires forall k <- w.sessions :: Idle(env, w.sessions[k], epoch) <==> k in idle
    ensures Sweep(env, w, epoch) == Without(w, idle)
  {
    hide Idle, Keyed, PrintedKey;
    var a, b := Sweep(env, w, epoch), Without(w, idle);
    assert a.sessions == b.sessions;
    FlowsSwept(env, w, epoch, idle);
    RevsSwept(env, w, epoch, idle);
  }

  lemma FlowsSwept(env: Env, w: State, epoch: real, idle: set<string>)
    requires BindingsLive(w)
    requires forall k <- w.sessions :: Idle(env, w.sessions[k], epoch) <==> k in idle
    ensures Sweep(env, w, epoch).flowMap == Without(w, idle).flowMap
  {
    hide Idle;
  }

  lemma RevsSwept(env: Env, w: State, epoch: real, idle: set<string>)
    requires BindingsLive(w) && Mirrored(w)
    requires forall k <- w.sessions :: Idle(env, w.sessions[k], epoch) <==> k in idle
    ensures Sweep(env, w, epoch).revMap == Without(w, idle).revMap
  {
    hide Idle;
    var a, b := Sweep(env, w, epoch).revMap, Without(w, idle).revMap;
    forall f | f in w.revMap ensures f in a <==> f in b {
      assert w.flowMap[f.Reverse()] == w.revMap[f];
    }
    assert a == b;
  }

  lemma SweepIsWithout(env: Env, u: State, epoch: real)
    requires Inv(u)
    ensures Sweep(env, u, epoch) == Without(u, IdleKeys(env, u, epoch))
    ensures Expired(env, u, epoch) == Rows(u, IdleKeys(env, u, epoch))
  {
    assert Without(u, {}) == u;
    SweepWithout(env, u, {}, epoch, epoch);
  }

  // ---- all windows ---------------------------------------------------------

  lemma {:induction false} StreamPrefix(jobs: seq<Job>, n: nat)
    requires n <= |jobs|
    ensures Stream(jobs[..n]) <= Stream(jobs)
  {
    if n < |jobs| {
      assert jobs[..|jobs| - 1][..n] == jobs[..n];
      StreamPrefix(jobs[..|jobs| - 1], n);
    } else {
      assert jobs[..n] == jobs;
    }
  }

  /** The n-th window occupies its own stretch of the stream. */
  lemma WindowStretch(jobs: seq<Job>, n: nat)
    requires 0 < n <= |jobs|
    ensures var xs, a := TellJob(jobs[n - 1]), |Stream(jobs[..n - 1])|;
      && |Stream(jobs[..n])| == a + |xs| <= |Stream(jobs)|
      && Stream(jobs)[a..a + |xs|] == xs
  {
    StreamPrefix(jobs, n);
    var xs, a := TellJob(jobs[n - 1]), |Stream(jobs[..n - 1])|;
    assert jobs[..n][..n - 1] == jobs[..n - 1];
    assert Stream(jobs[..n]) == Stream(jobs[..n - 1]) + xs;
    assert Stream(jobs)[..a + |xs|] == Stream(jobs[..n]);
    assert Stream(jobs)[a..a + |xs|] == Stream(jobs)[..a + |xs|][a..];
  }

  /** One more window, given what the windows before it left. */
  lemma NextWindow(env: Env, stream: seq<Told>, a: nat, job: Job, dead: set<string>, sweep: real)
    requires PlainEnv(env) && PositiveEpochs(stream) && SmallGaps(env, stream)
    requires WindowAt(stream, a, TellJob(job), sweep)
    requires Dead(env, Merged(env, stream, a), dead, sweep) && sweep <= job.SweepEpoch()
    ensures var u, u' := Merged(env, stream, a), Merged(env, stream, a + |job.parsed.packetEvents|);
      var dead' := IdleKeys(env, u', job.SweepEpoch());
      && ProcessJob(env, Outcome(Without(u, dead), Rows(u, dead)), job) == Outcome(Without(u', dead'), Rows(u', dead'))
      && Dead(env, u', dead', job.SweepEpoch())
  {
    hide Merge, Merged, Without, SmallGaps, Rows, Expired, Sweep, IdleKeys;
    var evts := job.parsed.packetEvents;
    var u, u' := Merged(env, stream, a), Merged(env, stream, a + |evts|);
    MergeWindow(env, job.matcher, job.parsed.payloadHints, stream, a, evts, dead, sweep);
    DeadKept(env, u, u', dead, sweep);
    MergedGood(env, stream, a + |evts|);
    SweepWithout(env, u', dead, sweep, job.SweepEpoch());
  }

  /** After the first `n` windows: the swept state is the unswept one without its idle sessions. */
  ghost predicate SoFar(env: Env, jobs: seq<Job>, n: nat, sweep: real)
    requires n <= |jobs|
  {
    && |Stream(jobs[..n])| <= |Stream(jobs)|
    && var u := Merged(env, Stream(jobs), |Stream(jobs[..n])|);
       var dead := IdleKeys(env, u, sweep);
       ProcessJobs(env, START, jobs[..n]) == Outcome(Without(u, dead), Rows(u, dead))
  }

  lemma NoWindowYet(env: Env, jobs: seq<Job>, sweep: real)
    ensures SoFar(env, jobs, 0, sweep)
  {
    assert jobs[..0] == [] && Stream([]) == [];
    assert Stream(jobs)[..0] == [];
    assert Without(EMPTY, {}) == EMPTY;
  }

  lemma NextWindowAt(jobs: seq<Job>, n: nat, sweep: real)
    requires PositiveEpochs(Stream(jobs)) && SweepsInOrder(jobs)
    requires 0 < n <= |jobs| && sweep == if n == 1 then 0.0 else jobs[n - 2].SweepEpoch()
    ensures WindowAt(Stream(jobs), |Stream(jobs[..n - 1])|, TellJob(jobs[n - 1]), sweep)
  {
    hide Stream;
    var xs, a := TellJob(jobs[n - 1]), |Stream(jobs[..n - 1])|;
    var stream := Stream(jobs);
    WindowStretch(jobs, n);
    forall j: nat | a <= j < a + |xs| ensures sweep <= stream[j].evt.epoch {
      assert xs[j - a] == stream[a..a + |xs|][j - a] == stream[j];
      assert stream[j].evt == jobs[n - 1].parsed.packetEvents[j - a];
    }
  }

  lemma {:induction false} WindowsSoFar(env: Env, jobs: seq<Job>, n: nat)
    requires PlainEnv(env) && PositiveEpochs(Stream(jobs)) && SmallGaps(env, Stream(jobs)) && SweepsInOrder(jobs)
    requires 0 < n <= |jobs|
    ensures SoFar(env, jobs, n, jobs[n - 1].SweepEpoch())
  {
    hide Merge, Merged, Without, SmallGaps, WindowAt, Rows, Expired, Sweep, ProcessJob;
    var job := jobs[n - 1];
    var a := |Stream(jobs[..n - 1])|;
    WindowStretch(jobs, n);
    var sweep := if n == 1 then 0.0 else jobs[n - 2].SweepEpoch();
    if n == 1 {
      NoWindowYet(env, jobs, sweep);
    } else {
      WindowsSoFar(env, jobs, n - 1);
    }
    NextWindowAt(jobs, n, sweep);
    var u := Merged(env, Stream(jobs), a);
    NextWindow(env, Stream(jobs), a, job, IdleKeys(env, u, sweep), sweep);
    assert jobs[..n][..n - 1] == jobs[..n - 1] && jobs[..n][n - 1] == job;
  }

  /**
   Windowing is transparent.  Any number of windows, each merged with its own
   hints and matcher and swept at an epoch no later than the next window's
   packets, leave exactly the sessions, request logs, expired rows and indexes
   that the unswept merge of all their packets leaves after one sweep at the
   last window's epoch, and no expired key is live again.
   */
  lemma {:induction false} WindowsAreUnswept(env: Env, jobs: seq<Job>)
    requires jobs != [] && PlainEnv(env)
    requires PositiveEpochs(Stream(jobs)) && SmallGaps(env, Stream(jobs)) && SweepsInOrder(jobs)
    ensures ProcessJobs(env, START, jobs) == SweptOnce(env, Unswept(env, Stream(jobs)), jobs[|jobs| - 1].SweepEpoch())
    ensures ProcessJobs(env, START, jobs).live.sessions.Keys !! ProcessJobs(env, START, jobs).expired.Keys
  {
    hide Unswept, SmallGaps, LookupHint, Idle, Expire, Good, ProcessJobs, Stream;
    var n, stream := |jobs|, Stream(jobs);
    var epoch := jobs[n - 1].SweepEpoch();
    var u := Unswept(env, stream);
    assert jobs[..n] == jobs && stream[..|stream|] == stream;
    WindowsSoFar(env, jobs, n);
    MergedGood(env, stream, |stream|);
    SweepIsWithout(env, u, epoch);
  }
}
