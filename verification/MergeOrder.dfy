/**
 Eight workers race into one channel, so windows may be merged in any order.
 The byte, packet and request totals of a connection do not depend on that order
 exactly when it is tracked already, or every window that holds a packet of it
 is hinted for it, or none is.  The sweep after each window changes nothing about
 this as long as the windows lie within the idle limit.
 */
module MergeOrder {
  import opened Model
  import opened Keys
  import opened Lists
  import opened Tracker
  import opened Indexes
  import opened Windowing

  datatype Totals = Totals(uplink: int, downlink: int, packets: int, requests: int) {
    function Plus(o: Totals): Totals {
      Totals(uplink + o.uplink, downlink + o.downlink, packets + o.packets, requests + o.requests)
    }

    function Minus(o: Totals): Totals {
      Totals(uplink - o.uplink, downlink - o.downlink, packets - o.packets, requests - o.requests)
    }
  }

  /** When the session of a client flow was last seen; zero when the flow is not tracked. */
  function LastSeenOf(st: State, f: FlowKey): real {
    if f in st.flowMap && st.flowMap[f] in st.sessions then st.sessions[st.flowMap[f]].lastSeenEpoch else 0.0
  }

  const ZERO: Totals := Totals(0, 0, 0, 0)

  /** What the tracker has recorded for a client flow; zero when it tracks none. */
  function TotalsOf(st: State, f: FlowKey): Totals {
    if f in st.flowMap && st.flowMap[f] in st.sessions then
      var s := st.sessions[st.flowMap[f]];
      Totals(s.uplinkBytes, s.downlinkBytes, s.packetCount, s.requestCount)
    else ZERO
  }

  /** One packet's own contribution, by its direction. */
  function Share(p: PacketEvent): Totals {
    if p.dstPort == 443 then Totals(p.length, 0, 1, if p.length > 0 then 1 else 0)
    else Totals(0, p.length, 1, 0)
  }

  function Sum(evts: seq<PacketEvent>, f: FlowKey): Totals {
    if evts == [] then ZERO
    else
      var init := Sum(evts[..|evts| - 1], f);
      if OnConnection(evts[|evts| - 1], f) then init.Plus(Share(evts[|evts| - 1])) else init
  }

  predicate ClientFlowKey(f: FlowKey) {
    f.dstPort == 443 && f.srcPort != 443
  }

  /** A packet of a connection whose client port is not 443. */
  predicate Regular(p: PacketEvent) {
    PlainPacket(p) && ClientFlowKey(p.ClientFlow())
  }

  /** Hints are recorded for uplink packets only. */
  predicate UplinkHints(hints: map<FlowKey, string>) {
    forall f <- hints :: f.dstPort == 443
  }

  /** The hint of a connection, as its uplink packets look it up. */
  function HintFor(env: Env, hints: map<FlowKey, string>, f: FlowKey): Hint {
    if f in hints && env.vendorOf(hints[f]) != "" then Hint(hints[f], env.vendorOf(hints[f]))
    else if f.dstIP in env.ipHints then Hint(env.ipHints[f.dstIP].domain, env.ipHints[f.dstIP].vendor)
    else Hint("", "")
  }

  /** Both directions of a connection look up the same hint. */
  lemma LookupSymmetric(env: Env, hints: map<FlowKey, string>, p: PacketEvent)
    requires UplinkHints(hints) && Regular(p)
    ensures LookupHint(env, hints, p) == HintFor(env, hints, p.ClientFlow())
  {
    assert p.ClientFlow().Reverse() !in hints;
  }

  /** Every tracked flow is seen from a client on a port other than 443. */
  predicate ClientSide(st: State) {
    forall f <- st.flowMap :: ClientFlowKey(f)
  }

  ghost predicate Sound(st: State) {
    Inv(st) && ClientSide(st)
  }

  predicate Tracks(env: Env, hints: map<FlowKey, string>, st: State, f: FlowKey) {
    f in st.flowMap || HintFor(env, hints, f).Usable()
  }

  lemma OwnClientFlow(p: PacketEvent, f: FlowKey)
    requires Regular(p) && ClientFlowKey(f)
    ensures SamePair(f, p.Flow()) <==> p.ClientFlow() == f
  {
  }

  /** A packet of a tracked or hinted connection is counted once, for that connection only, and binds it. */
  lemma StepTotals(env: Env, hints: map<FlowKey, string>, st: State, p: PacketEvent, f: FlowKey)
    requires PlainEnv(env) && UplinkHints(hints) && Regular(p) && Sound(st) && ClientFlowKey(f)
    ensures var st' := Step(env, hints, st, p);
      var counted := OnConnection(p, f) && Tracks(env, hints, st, f);
      && Sound(st')
      && (f in st'.flowMap <==> f in st.flowMap || counted)
      && (f in st.flowMap ==> st'.flowMap[f] == st.flowMap[f])
      && (f in st'.flowMap && f !in st.flowMap ==> st'.flowMap[f] == NewKey(env, p, HintFor(env, hints, f)))
      && TotalsOf(st', f) == (if counted then TotalsOf(st, f).Plus(Share(p)) else TotalsOf(st, f))
      && LastSeenOf(st', f) == (if counted then p.epoch else LastSeenOf(st, f))
  {
    hide LookupHint, SessionKeyText, Touch, Inv, TotalsOf, LastSeenOf;
    StepKeepsInv(env, hints, st, p);
    if p.protocol.Tcp? {
      LookupSymmetric(env, hints, p);
      OwnClientFlow(p, f);
      FindClient(st, p);
      if Find(st, p.Flow()) != "" {
        StepBound(env, hints, st, p, f);
      } else if HintFor(env, hints, p.ClientFlow()).Usable() {
        StepRegisters(env, hints, st, p, f);
      }
    }
  }

  lemma FindClient(st: State, p: PacketEvent)
    requires Sound(st) && Regular(p)
    ensures Find(st, p.Flow()) == Get(st.flowMap, p.ClientFlow())
    ensures Find(st, p.Flow()) == "" <==> p.ClientFlow() !in st.flowMap
  {
    var g := p.ClientFlow();
    assert g.Reverse() !in st.flowMap;
    assert g in st.revMap ==> g.Reverse() in st.flowMap;
  }

  lemma StepBound(env: Env, hints: map<FlowKey, string>, st: State, p: PacketEvent, f: FlowKey)
    requires Sound(st) && Regular(p) && ClientFlowKey(f) && p.protocol.Tcp?
    requires Find(st, p.Flow()) == Get(st.flowMap, p.ClientFlow()) != ""
    ensures Step(env, hints, st, p).flowMap == st.flowMap
    ensures LastSeenOf(Step(env, hints, st, p), f) == if p.ClientFlow() == f then p.epoch else LastSeenOf(st, f)
    ensures TotalsOf(Step(env, hints, st, p), f)
         == if p.ClientFlow() == f then TotalsOf(st, f).Plus(Share(p)) else TotalsOf(st, f)
  {
    hide LookupHint, LogsAfter, Keyed, SessionKeyText;
    var key := st.flowMap[p.ClientFlow()];
    assert Target(env, hints, st, p) == key && FindOrRegister(env, hints, st, p) == st;
    assert Step(env, hints, st, p) == st.(sessions := st.sessions[key := Touch(st.sessions[key], p)]);
    if f in st.flowMap && p.ClientFlow() != f {
      assert st.flowMap[f] != key;
    }
  }

  lemma StepRegisters(env: Env, hints: map<FlowKey, string>, st: State, p: PacketEvent, f: FlowKey)
    requires PlainEnv(env) && Sound(st) && Regular(p) && ClientFlowKey(f)
    requires Registers(env, hints, st, p)
    ensures Step(env, hints, st, p).flowMap == st.flowMap[p.ClientFlow() := NewKey(env, p, LookupHint(env, hints, p))]
    ensures LastSeenOf(Step(env, hints, st, p), f) == if p.ClientFlow() == f then p.epoch else LastSeenOf(st, f)
    ensures TotalsOf(Step(env, hints, st, p), f)
         == if p.ClientFlow() == f then TotalsOf(st, f).Plus(Share(p)) else TotalsOf(st, f)
  {
    hide LookupHint, SessionKeyText, Touch, Step, TotalsOf, LastSeenOf, BindingsLive, Mirrored, Keyed;
    var hint := LookupHint(env, hints, p);
    var key := NewKey(env, p, hint);
    RegisterOverwritesNothing(st, p);
    NewKeyUnbound(env, st, p, hint);
    NewSessionPrinted(env, p, hint);
    StepWhenRegistering(env, hints, st, p);
    TotalsOfBind(st, NewSession(env, p, hint), p, f);
  }

  lemma TotalsOfBind(st: State, s: SessionView, p: PacketEvent, f: FlowKey)
    requires s.id.flow !in st.flowMap && s.uplinkBytes == s.downlinkBytes == s.packetCount == s.requestCount == 0
    requires forall g <- st.flowMap :: st.flowMap[g] != s.id.sessionKey
    ensures LastSeenOf(Bind(st, s).(sessions := st.sessions[s.id.sessionKey := Touch(s, p)]), f)
         == if s.id.flow == f then p.epoch else LastSeenOf(st, f)
    ensures TotalsOf(Bind(st, s).(sessions := st.sessions[s.id.sessionKey := Touch(s, p)]), f)
         == if s.id.flow == f then TotalsOf(st, f).Plus(Share(p)) else TotalsOf(st, f)
  {
    hide LogsAfter;
    var k := s.id.sessionKey;
    var st' := Bind(st, s).(sessions := st.sessions[k := Touch(s, p)]);
    if f != s.id.flow && f in st.flowMap {
      assert st'.flowMap[f] == st.flowMap[f] != k;
    }
  }

  lemma StepWhenRegistering(env: Env, hints: map<FlowKey, string>, st: State, p: PacketEvent)
    requires Registers(env, hints, st, p) && NewKey(env, p, LookupHint(env, hints, p)) != ""
    ensures var s := NewSession(env, p, LookupHint(env, hints, p));
      Step(env, hints, st, p) == Bind(st, s).(sessions := st.sessions[s.id.sessionKey := Touch(s, p)])
  {
    hide LookupHint, SessionKeyText, Touch;
    var s := NewSession(env, p, LookupHint(env, hints, p));
    assert Target(env, hints, st, p) == s.id.sessionKey;
    assert st.sessions[s.id.sessionKey := s][s.id.sessionKey := Touch(s, p)]
       == st.sessions[s.id.sessionKey := Touch(s, p)];
  }

  // ---- one window ----------------------------------------------------------

  /** A window as the parser makes it: regular packets, and hints from uplink packets. */
  predicate RegularJob(w: Job) {
    UplinkHints(w.parsed.payloadHints) && forall p <- w.parsed.packetEvents :: Regular(p)
  }

  /** The job's own hints and matcher, or the address hints, are enough to open a session for the connection. */
  predicate Hinted(env: Env, w: Job, f: FlowKey) {
    HintFor(env.With(w.matcher), w.parsed.payloadHints, f).Usable()
  }

  /** The job holds a packet of the connection. */
  predicate Has(w: Job, f: FlowKey) {
    Holds(w.parsed.packetEvents, f)
  }

  /** What the job's packets of the connection come to. */
  function JobSum(w: Job, f: FlowKey): Totals {
    Sum(w.parsed.packetEvents, f)
  }

  /** Some packet of the connection is among these. */
  predicate Holds(evts: seq<PacketEvent>, f: FlowKey) {
    exists p <- evts :: OnConnection(p, f)
  }

  lemma HoldsSnoc(evts: seq<PacketEvent>, p: PacketEvent, f: FlowKey)
    ensures Holds(evts + [p], f) <==> Holds(evts, f) || OnConnection(p, f)
  {
    assert p in evts + [p] && forall q <- evts :: q in evts + [p];
    assert forall q <- evts + [p] :: q in evts || q == p;
  }

  function FirstOn(evts: seq<PacketEvent>, f: FlowKey): PacketEvent
    requires Holds(evts, f)
  {
    var n := |evts| - 1;
    if Holds(evts[..n], f) then FirstOn(evts[..n], f) else evts[n]
  }

  function LastOn(evts: seq<PacketEvent>, f: FlowKey): PacketEvent
    requires Holds(evts, f)
  {
    var n := |evts| - 1;
    if OnConnection(evts[n], f) then evts[n] else
      HoldsSnoc(evts[..n], evts[n], f);
      assert evts == evts[..n] + [evts[n]];
      LastOn(evts[..n], f)
  }

  /** What merging some packets does for one connection. */
  ghost predicate Counts(env: Env, hints: map<FlowKey, string>, st: State, evts: seq<PacketEvent>, f: FlowKey,
                         st': State) {
    var counted := Tracks(env, hints, st, f);
    && Sound(st')
    && (f in st'.flowMap <==> f in st.flowMap || (counted && Holds(evts, f)))
    && (f in st.flowMap ==> st'.flowMap[f] == st.flowMap[f])
    && (f in st'.flowMap && f !in st.flowMap ==>
          st'.flowMap[f] == NewKey(env, FirstOn(evts, f), HintFor(env, hints, f)))
    && TotalsOf(st', f) == (if counted then TotalsOf(st, f).Plus(Sum(evts, f)) else TotalsOf(st, f))
    && LastSeenOf(st', f) == (if counted && Holds(evts, f) then LastOn(evts, f).epoch else LastSeenOf(st, f))
  }

  /**
   A merge counts every packet of a tracked or hinted connection and none of any
   other, and binds an untracked one to the key of its first packet.
   */
  lemma {:induction false} MergeTotals(env: Env, hints: map<FlowKey, string>, st: State, evts: seq<PacketEvent>,
                                       f: FlowKey)
    requires PlainEnv(env) && UplinkHints(hints) && (forall p <- evts :: Regular(p)) && Sound(st) && ClientFlowKey(f)
    ensures Counts(env, hints, st, evts, f, Merge(env, hints, st, evts))
  {
    hide Step, LookupHint, Sound, TotalsOf, LastSeenOf, Regular, HintFor, OnConnection, Share;
    if evts == [] {
      PlusZero(TotalsOf(st, f));
    } else {
      var n := |evts| - 1;
      var init, p := evts[..n], evts[n];
      assert p in evts && forall q <- init :: q in evts;
      assert evts == init + [p];
      MergeTotals(env, hints, st, init, f);
      HoldsSnoc(init, p, f);
      StepTotals(env, hints, Merge(env, hints, st, init), p, f);
      PlusAssociates(TotalsOf(st, f), Sum(init, f), Share(p));
    }
  }

  lemma PlusAssociates(a: Totals, b: Totals, c: Totals)
    ensures a.Plus(b).Plus(c) == a.Plus(b.Plus(c))
  {
  }

  lemma PlusZero(a: Totals)
    ensures a.Plus(ZERO) == a == ZERO.Plus(a)
  {
  }

  lemma {:induction false} SumPackets(evts: seq<PacketEvent>, f: FlowKey)
    ensures Sum(evts, f).packets >= if Holds(evts, f) then 1 else 0
    ensures !Holds(evts, f) ==> Sum(evts, f) == ZERO
  {
    if evts != [] {
      var n := |evts| - 1;
      assert evts == evts[..n] + [evts[n]];
      HoldsSnoc(evts[..n], evts[n], f);
      SumPackets(evts[..n], f);
    }
  }

  lemma JobPackets(w: Job, f: FlowKey)
    ensures JobSum(w, f).packets >= if Has(w, f) then 1 else 0
    ensures !Has(w, f) ==> JobSum(w, f) == ZERO
  {
    SumPackets(w.parsed.packetEvents, f);
  }

  /** What merging a job does for one connection. */
  lemma JobCounts(env: Env, st: State, w: Job, f: FlowKey)
    requires PlainEnv(env) && Sound(st) && ClientFlowKey(f) && RegularJob(w)
    ensures var st' := MergeJob(env, st, w);
      && Sound(st')
      && (f in st'.flowMap <==> f in st.flowMap || (Hinted(env, w, f) && Has(w, f)))
      && TotalsOf(st', f) == (if f in st.flowMap || Hinted(env, w, f)
                              then TotalsOf(st, f).Plus(JobSum(w, f)) else TotalsOf(st, f))
      && LastSeenOf(st', f) == (if (f in st.flowMap || Hinted(env, w, f)) && Has(w, f)
                                then LastOn(w.parsed.packetEvents, f).epoch else LastSeenOf(st, f))
  {
    hide Merge, Sound, TotalsOf, Sum, LastSeenOf, HintFor, Regular, Holds, LastOn, FirstOn;
    MergeTotals(env.With(w.matcher), w.parsed.payloadHints, st, w.parsed.packetEvents, f);
  }

  // ---- windows in some order -----------------------------------------------

  function MergeWindows(env: Env, st: State, ws: seq<Job>): State {
    if ws == [] then st
    else MergeJob(env, MergeWindows(env, st, ws[..|ws| - 1]), ws[|ws| - 1])
  }

  /** Some window both holds a packet of the connection and is hinted for it. */
  ghost predicate BoundBy(env: Env, ws: seq<Job>, f: FlowKey) {
    exists w <- ws :: Has(w, f) && Hinted(env, w, f)
  }

  lemma BoundBySnoc(env: Env, ws: seq<Job>, w: Job, f: FlowKey)
    ensures BoundBy(env, ws + [w], f) <==> BoundBy(env, ws, f) || (Has(w, f) && Hinted(env, w, f))
  {
    assert w in ws + [w] && forall v <- ws :: v in ws + [w];
    assert forall v <- ws + [w] :: v in ws || v == w;
  }

  /** What the windows count for a connection, in this order: nothing before the first hinted window that holds it. */
  ghost function Counted(env: Env, tracked: bool, ws: seq<Job>, f: FlowKey): Totals {
    if ws == [] then ZERO
    else
      var init, w := ws[..|ws| - 1], ws[|ws| - 1];
      Counted(env, tracked, init, f).Plus(
        if tracked || BoundBy(env, init, f) || Hinted(env, w, f) then JobSum(w, f) else ZERO)
  }

  /** What a sequence of windows with their own hints leaves for a connection. */
  lemma {:induction false} WindowTotals(env: Env, st: State, ws: seq<Job>, f: FlowKey)
    requires PlainEnv(env) && Sound(st) && ClientFlowKey(f) && forall w <- ws :: RegularJob(w)
    ensures var st' := MergeWindows(env, st, ws);
      && Sound(st')
      && (f in st'.flowMap <==> f in st.flowMap || BoundBy(env, ws, f))
      && TotalsOf(st', f) == TotalsOf(st, f).Plus(Counted(env, f in st.flowMap, ws, f))
  {
    hide Merge, Sound, TotalsOf, Sum, Totals.Plus, PlainEnv, UplinkHints, ClientFlowKey, BoundBy, Holds,
         LastSeenOf, HintFor;
    if ws == [] {
      PlusZero(TotalsOf(st, f));
      BoundByNone(env, f);
    } else {
      var n := |ws| - 1;
      var init, w := ws[..n], ws[n];
      assert w in ws && forall v <- init :: v in ws;
      assert ws == init + [w];
      WindowTotals(env, st, init, f);
      var mid := MergeWindows(env, st, init);
      JobCounts(env, mid, w, f);
      BoundBySnoc(env, init, w, f);
      PlusZero(Counted(env, f in st.flowMap, init, f));
      PlusAssociates(TotalsOf(st, f), Counted(env, f in st.flowMap, init, f), JobSum(w, f));
    }
  }

  lemma BoundByNone(env: Env, f: FlowKey)
    ensures !BoundBy(env, [], f)
  {
  }

  /** A total over jobs, each with its own weight. */
  function TotalOver(ws: seq<Job>, weight: Job -> Totals): Totals {
    if ws == [] then ZERO else TotalOver(ws[..|ws| - 1], weight).Plus(weight(ws[|ws| - 1]))
  }

  lemma {:induction false} TotalSnoc(ws: seq<Job>, w: Job, weight: Job -> Totals)
    ensures TotalOver(ws + [w], weight) == TotalOver(ws, weight).Plus(weight(w))
  {
    assert (ws + [w])[..|ws|] == ws;
  }

  lemma {:induction false} TotalRemove(ws: seq<Job>, i: nat, weight: Job -> Totals)
    requires i < |ws|
    ensures TotalOver(ws, weight) == TotalOver(ws[..i] + ws[i + 1..], weight).Plus(weight(ws[i]))
  {
    hide TotalOver;
    var n := |ws| - 1;
    var init := ws[..n];
    TotalSnoc(init, ws[n], weight);
    assert ws == init + [ws[n]];
    if i == n {
      assert ws[..i] + ws[i + 1..] == init;
    } else {
      var rest := init[..i] + init[i + 1..];
      TotalRemove(init, i, weight);
      TotalSnoc(rest, ws[n], weight);
      assert ws[..i] + ws[i + 1..] == rest + [ws[n]];
    }
  }

  lemma {:induction false} TotalPermutes(ws: seq<Job>, ws': seq<Job>, weight: Job -> Totals)
    requires multiset(ws) == multiset(ws')
    ensures TotalOver(ws, weight) == TotalOver(ws', weight)
  {
    if ws == [] {
      assert |multiset(ws')| == 0;
    } else {
      hide Totals.Plus;
      var n := |ws| - 1;
      assert ws[n] in multiset(ws');
      var i :| 0 <= i < |ws'| && ws'[i] == ws[n];
      RemoveSame(ws, ws', i);
      TotalPermutes(ws[..n], ws'[..i] + ws'[i + 1..], weight);
      TotalRemove(ws', i, weight);
    }
  }

  function OnFlow(f: FlowKey): Job -> Totals {
    (w: Job) => JobSum(w, f)
  }

  /** What all packets of the connection come to. */
  function WindowSum(ws: seq<Job>, f: FlowKey): Totals {
    TotalOver(ws, OnFlow(f))
  }

  // ---- when the order does not matter --------------------------------------

  /** Every window that holds a packet of the connection is hinted for it. */
  ghost predicate AllHinted(env: Env, ws: seq<Job>, f: FlowKey) {
    forall w <- ws | Has(w, f) :: Hinted(env, w, f)
  }

  /** No window that holds a packet of the connection is hinted for it. */
  ghost predicate NoneHinted(env: Env, ws: seq<Job>, f: FlowKey) {
    forall w <- ws | Has(w, f) :: !Hinted(env, w, f)
  }

  lemma {:induction false} AllCounted(env: Env, tracked: bool, ws: seq<Job>, f: FlowKey)
    requires tracked || AllHinted(env, ws, f)
    ensures Counted(env, tracked, ws, f) == WindowSum(ws, f)
  {
    hide Totals.Plus, Has, Hinted, BoundBy, JobSum;
    if ws != [] {
      var init, w := ws[..|ws| - 1], ws[|ws| - 1];
      assert w in ws && forall v <- init :: v in ws;
      AllCounted(env, tracked, init, f);
      JobPackets(w, f);
    }
  }

  lemma {:induction false} NoneCounted(env: Env, ws: seq<Job>, f: FlowKey)
    requires NoneHinted(env, ws, f)
    ensures Counted(env, false, ws, f) == ZERO
  {
    hide Totals.Plus, Has, Hinted, JobSum;
    if ws != [] {
      var init, w := ws[..|ws| - 1], ws[|ws| - 1];
      assert w in ws && forall v <- init :: v in ws;
      NoneCounted(env, init, f);
      JobPackets(w, f);
      PlusZero(ZERO);
    }
  }

  /** A hinted window that holds the connection, merged first, makes everything count. */
  lemma {:induction false} HintedFirst(env: Env, ws: seq<Job>, f: FlowKey)
    requires ws != [] && Has(ws[0], f) && Hinted(env, ws[0], f)
    ensures Counted(env, false, ws, f) == WindowSum(ws, f)
  {
    hide Totals.Plus, Has, Hinted, JobSum;
    var n := |ws| - 1;
    if n > 0 {
      HintedFirst(env, ws[..n], f);
      assert ws[..n][0] == ws[0] && ws[0] in ws[..n];
      assert BoundBy(env, ws[..n], f);
    } else {
      assert ws[..0] == [];
      assert Counted(env, false, ws, f) == ZERO.Plus(JobSum(ws[n], f));
    }
    assert WindowSum(ws, f) == WindowSum(ws[..n], f).Plus(JobSum(ws[n], f));
  }

  /** An unhinted window that holds the connection, merged first, is not counted. */
  lemma {:induction false} UnhintedFirst(env: Env, ws: seq<Job>, f: FlowKey)
    requires ws != [] && Has(ws[0], f) && !Hinted(env, ws[0], f)
    ensures Counted(env, false, ws, f).packets < WindowSum(ws, f).packets
  {
    hide Has, Hinted, JobSum, BoundBy, Totals.Plus;
    var n := |ws| - 1;
    var sum := JobSum(ws[n], f);
    JobPackets(ws[n], f);
    PlusPackets(WindowSum(ws[..n], f), sum);
    PlusPackets(Counted(env, false, ws[..n], f), sum);
    PlusPackets(Counted(env, false, ws[..n], f), ZERO);
    if n > 0 {
      UnhintedFirst(env, ws[..n], f);
      assert ws[..n][0] == ws[0];
    } else {
      assert ws[..0] == [];
      BoundByNone(env, f);
    }
  }

  lemma PlusPackets(a: Totals, b: Totals)
    ensures a.Plus(b).packets == a.packets + b.packets
  {
  }

  /** Every order of the same windows records the same totals for the connection. */
  ghost predicate AnyOrder(env: Env, st: State, ws: seq<Job>, f: FlowKey) {
    forall ws' | multiset(ws') == multiset(ws) ::
      TotalsOf(MergeWindows(env, st, ws'), f) == TotalsOf(MergeWindows(env, st, ws), f)
  }

  lemma Rearranged(env: Env, st: State, ws: seq<Job>, ws': seq<Job>, f: FlowKey)
    requires multiset(ws') == multiset(ws)
    requires PlainEnv(env) && Sound(st) && ClientFlowKey(f) && forall w <- ws :: RegularJob(w)
    ensures TotalsOf(MergeWindows(env, st, ws'), f) == TotalsOf(st, f).Plus(Counted(env, f in st.flowMap, ws', f))
    ensures WindowSum(ws', f) == WindowSum(ws, f)
    ensures AllHinted(env, ws', f) == AllHinted(env, ws, f) && NoneHinted(env, ws', f) == NoneHinted(env, ws, f)
  {
    hide RegularJob, Counted, TotalsOf, MergeWindows, Sound, Hinted, Holds;
    forall w ensures w in ws' <==> w in ws {
      assert w in multiset(ws') <==> w in multiset(ws);
    }
    WindowTotals(env, st, ws', f);
    TotalPermutes(ws', ws, OnFlow(f));
  }

  /** The window at a position moved to the front. */
  function Fronted<T>(ws: seq<T>, i: nat): seq<T>
    requires i < |ws|
  {
    [ws[i]] + (ws[..i] + ws[i + 1..])
  }

  lemma FrontedPermutes<T>(ws: seq<T>, i: nat)
    requires i < |ws|
    ensures multiset(Fronted(ws, i)) == multiset(ws)
  {
    assert ws == ws[..i] + [ws[i]] + ws[i + 1..];
  }

  /** A hinted and an unhinted window of an untracked connection give different totals in different orders. */
  lemma MixedOrders(env: Env, st: State, ws: seq<Job>, f: FlowKey, i: nat, j: nat)
    requires PlainEnv(env) && Sound(st) && ClientFlowKey(f) && (forall w <- ws :: RegularJob(w)) && f !in st.flowMap
    requires i < |ws| && Has(ws[i], f) && Hinted(env, ws[i], f)
    requires j < |ws| && Has(ws[j], f) && !Hinted(env, ws[j], f)
    ensures TotalsOf(MergeWindows(env, st, Fronted(ws, i)), f) != TotalsOf(MergeWindows(env, st, Fronted(ws, j)), f)
    ensures multiset(Fronted(ws, i)) == multiset(Fronted(ws, j)) == multiset(ws)
  {
    hide RegularJob, Counted, TotalsOf, MergeWindows, Sound, Hinted, Holds;
    var a, b := Fronted(ws, i), Fronted(ws, j);
    FrontedPermutes(ws, i);
    FrontedPermutes(ws, j);
    Rearranged(env, st, ws, a, f);
    Rearranged(env, st, ws, b, f);
    HintedFirst(env, a, f);
    UnhintedFirst(env, b, f);
  }

  /**
   When eight workers may race.  The totals of a connection do not depend on the
   order of the windows exactly when it is tracked already, or every window that
   holds a packet of it is hinted for it, or none is.
   */
  lemma {:induction false} MergeOrderIrrelevant(env: Env, st: State, ws: seq<Job>, f: FlowKey)
    requires PlainEnv(env) && Sound(st) && ClientFlowKey(f) && forall w <- ws :: RegularJob(w)
    ensures AnyOrder(env, st, ws, f) <==> f in st.flowMap || AllHinted(env, ws, f) || NoneHinted(env, ws, f)
  {
    hide RegularJob, Counted, TotalsOf, MergeWindows, Sound, Hinted, Holds;
    if f in st.flowMap || AllHinted(env, ws, f) || NoneHinted(env, ws, f) {
      forall ws' | multiset(ws') == multiset(ws)
        ensures TotalsOf(MergeWindows(env, st, ws'), f) == TotalsOf(MergeWindows(env, st, ws), f)
      {
        SameInOrder(env, st, ws, ws', f);
      }
    } else {
      var v :| v in ws && Has(v, f) && !Hinted(env, v, f);
      var w :| w in ws && Has(w, f) && Hinted(env, w, f);
      var j :| 0 <= j < |ws| && ws[j] == v;
      var i :| 0 <= i < |ws| && ws[i] == w;
      MixedOrders(env, st, ws, f, i, j);
    }
  }

  lemma SameInOrder(env: Env, st: State, ws: seq<Job>, ws': seq<Job>, f: FlowKey)
    requires multiset(ws') == multiset(ws)
    requires PlainEnv(env) && Sound(st) && ClientFlowKey(f) && forall w <- ws :: RegularJob(w)
    requires f in st.flowMap || AllHinted(env, ws, f) || NoneHinted(env, ws, f)
    ensures TotalsOf(MergeWindows(env, st, ws'), f) == TotalsOf(MergeWindows(env, st, ws), f)
  {
    hide RegularJob, Counted, TotalsOf, MergeWindows, Sound, AllHinted, NoneHinted;
    Rearranged(env, st, ws, ws', f);
    Rearranged(env, st, ws, ws, f);
    if f in st.flowMap || AllHinted(env, ws, f) {
      AllCounted(env, f in st.flowMap, ws, f);
      AllCounted(env, f in st.flowMap, ws', f);
    } else {
      NoneCounted(env, ws, f);
      NoneCounted(env, ws', f);
    }
  }

  // ---- with the sweep after each window -------------------------------------

  /** A sweep at this epoch drops the session of a tracked connection. */
  predicate Drops(env: Env, st: State, epoch: real, f: FlowKey) {
    f in st.flowMap && st.flowMap[f] in st.sessions && Idle(env, st.sessions[st.flowMap[f]], epoch)
  }

  lemma SweepTotals(env: Env, st: State, epoch: real, f: FlowKey)
    requires Sound(st)
    ensures var st' := Sweep(env, st, epoch);
      && Sound(st')
      && (f in st'.flowMap <==> f in st.flowMap && !Drops(env, st, epoch, f))
      && (f in st'.flowMap ==> st'.flowMap[f] == st.flowMap[f])
      && TotalsOf(st', f) == (if Drops(env, st, epoch, f) then ZERO else TotalsOf(st, f))
      && LastSeenOf(st', f) == (if Drops(env, st, epoch, f) then 0.0 else LastSeenOf(st, f))
  {
    hide Idle, Sweep, Keyed;
    SweepKeepsInv(env, st, epoch);
    SweepExact(env, st, epoch);
  }

  /** No sweep of these jobs finds a session idle that was last seen then. */
  ghost predicate Recent(env: Env, jobs: seq<Job>, last: real) {
    last != 0.0 && forall w <- jobs :: w.SweepEpoch() - last < env.idleSeconds as real
  }

  /** The connection was last seen, before and in each job, within the idle limit of every job's sweep. */
  ghost predicate WithinLimit(env: Env, st: State, jobs: seq<Job>, f: FlowKey) {
    && (f in st.flowMap ==> Recent(env, jobs, LastSeenOf(st, f)))
    && forall w <- jobs | Has(w, f) :: Recent(env, jobs, LastOn(w.parsed.packetEvents, f).epoch)
  }

  lemma RecentSpared(env: Env, st: State, jobs: seq<Job>, w: Job, f: FlowKey)
    requires w in jobs && (f in st.flowMap ==> Recent(env, jobs, LastSeenOf(st, f)))
    ensures !Drops(env, st, w.SweepEpoch(), f)
  {
  }

  /** One job of a run whose sweeps all lie within the limit. */
  lemma JobTotals(env: Env, st: State, all: seq<Job>, job: Job, f: FlowKey)
    requires PlainEnv(env) && Sound(st) && ClientFlowKey(f) && RegularJob(job) && job in all
    requires f in st.flowMap ==> Recent(env, all, LastSeenOf(st, f))
    requires Has(job, f) ==> Recent(env, all, LastOn(job.parsed.packetEvents, f).epoch)
    ensures var st' := Sweep(env, MergeJob(env, st, job), job.SweepEpoch());
      && Sound(st')
      && (f in st'.flowMap <==> f in st.flowMap || (Hinted(env, job, f) && Has(job, f)))
      && TotalsOf(st', f) == (if f in st.flowMap || Hinted(env, job, f)
                              then TotalsOf(st, f).Plus(JobSum(job, f)) else TotalsOf(st, f))
      && (f in st'.flowMap ==> Recent(env, all, LastSeenOf(st', f)))
  {
    hide Merge, Sweep, Sum, Sound, TotalsOf, LastSeenOf, Drops, HintFor, Regular, Holds, LastOn, Recent;
    var merged := MergeJob(env, st, job);
    JobCounts(env, st, job, f);
    RecentSpared(env, merged, all, job, f);
    SweepTotals(env, merged, job.SweepEpoch(), f);
  }

  /** Jobs merged and swept in turn count what their windows count. */
  lemma {:induction false} SweptTotals(env: Env, st: State, all: seq<Job>, jobs: seq<Job>, f: FlowKey)
    requires PlainEnv(env) && Sound(st) && ClientFlowKey(f) && (forall w <- all :: RegularJob(w))
    requires WithinLimit(env, st, all, f) && forall w <- jobs :: w in all
    ensures SweptAs(env, st, all, jobs, f, ProcessJobs(env, Outcome(st, map[]), jobs).live)
  {
    hide SweptAs, RegularJob, Sound, MergeJob, Sweep;
    if jobs == [] {
      NothingSwept(env, st, all, f);
    } else {
      var n := |jobs| - 1;
      var init, job := jobs[..n], jobs[n];
      assert job in jobs && forall v <- init :: v in jobs;
      assert jobs == init + [job];
      SweptTotals(env, st, all, init, f);
      OneMoreSwept(env, st, all, init, job, f, ProcessJobs(env, Outcome(st, map[]), init).live);
    }
  }

  /** What the jobs leave for the connection. */
  ghost predicate SweptAs(env: Env, st: State, all: seq<Job>, jobs: seq<Job>, f: FlowKey, live: State) {
    && Sound(live)
    && (f in live.flowMap <==> f in st.flowMap || BoundBy(env, jobs, f))
    && TotalsOf(live, f) == TotalsOf(st, f).Plus(Counted(env, f in st.flowMap, jobs, f))
    && (f in live.flowMap ==> Recent(env, all, LastSeenOf(live, f)))
  }

  lemma {:induction false} NothingSwept(env: Env, st: State, all: seq<Job>, f: FlowKey)
    requires Sound(st) && WithinLimit(env, st, all, f)
    ensures SweptAs(env, st, all, [], f, st)
  {
    hide Sound, TotalsOf, LastSeenOf, Recent;
    PlusZero(TotalsOf(st, f));
    BoundByNone(env, f);
  }

  lemma {:induction false} OneMoreSwept(env: Env, st: State, all: seq<Job>, init: seq<Job>, job: Job, f: FlowKey,
                                        mid: State)
    requires PlainEnv(env) && ClientFlowKey(f) && RegularJob(job) && job in all && WithinLimit(env, st, all, f)
    requires SweptAs(env, st, all, init, f, mid)
    ensures SweptAs(env, st, all, init + [job], f, Sweep(env, MergeJob(env, mid, job), job.SweepEpoch()))
  {
    hide MergeJob, Sweep, Sound, TotalsOf, JobSum, Totals.Plus, RegularJob, BoundBy, Has, Hinted, LastSeenOf,
         LastOn, Recent;
    JobTotals(env, mid, all, job, f);
    BoundBySnoc(env, init, job, f);
    var was := Counted(env, f in st.flowMap, init, f);
    assert (init + [job])[..|init|] == init;
    PlusZero(was);
    PlusAssociates(TotalsOf(st, f), was, JobSum(job, f));
  }

  /** What the connection is recorded with after the jobs, each swept in its turn. */
  ghost function JobsTotals(env: Env, st: State, jobs: seq<Job>, f: FlowKey): Totals {
    TotalsOf(ProcessJobs(env, Outcome(st, map[]), jobs).live, f)
  }

  ghost predicate AnyJobOrder(env: Env, st: State, jobs: seq<Job>, f: FlowKey) {
    forall jobs' | multiset(jobs') == multiset(jobs) :: JobsTotals(env, st, jobs', f) == JobsTotals(env, st, jobs, f)
  }

  /** In every order the sweeps change nothing. */
  lemma SweepsChangeNothing(env: Env, st: State, jobs: seq<Job>, jobs': seq<Job>, f: FlowKey)
    requires PlainEnv(env) && Sound(st) && ClientFlowKey(f) && (forall w <- jobs :: RegularJob(w))
    requires WithinLimit(env, st, jobs, f) && multiset(jobs') == multiset(jobs)
    ensures JobsTotals(env, st, jobs', f) == TotalsOf(MergeWindows(env, st, jobs'), f)
  {
    hide RegularJob, Counted, TotalsOf, MergeWindows, Sound, ProcessJobs, WithinLimit;
    forall w | w in jobs' ensures w in jobs {
      assert w in multiset(jobs');
    }
    SweptTotals(env, st, jobs, jobs', f);
    WindowTotals(env, st, jobs', f);
  }

  /**
   The same with the sweep that follows each merge: for jobs whose sweeps lie
   within the idle limit of what they hold of the connection, its totals do not
   depend on the order of the jobs exactly under the condition above.
   */
  lemma {:induction false} JobOrderIrrelevant(env: Env, st: State, jobs: seq<Job>, f: FlowKey)
    requires PlainEnv(env) && Sound(st) && ClientFlowKey(f) && (forall w <- jobs :: RegularJob(w))
    requires WithinLimit(env, st, jobs, f)
    ensures AnyJobOrder(env, st, jobs, f) <==> f in st.flowMap || AllHinted(env, jobs, f) || NoneHinted(env, jobs, f)
  {
    hide RegularJob, TotalsOf, MergeWindows, Sound, AllHinted, NoneHinted, JobsTotals, WithinLimit;
    MergeOrderIrrelevant(env, st, jobs, f);
    forall jobs' | multiset(jobs') == multiset(jobs)
      ensures JobsTotals(env, st, jobs', f) == TotalsOf(MergeWindows(env, st, jobs'), f)
    {
      SweepsChangeNothing(env, st, jobs, jobs', f);
    }
    SweepsChangeNothing(env, st, jobs, jobs, f);
  }
}
