/**
 The byte ledger of a session.  Any packet sequence splits in exactly one way
 into the packets before the first request and a list of exchanges, each a
 positive uplink packet with the packets up to the next one; the session's
 request logs are those exchanges, one for one, and its counters are their sums.
 */
module Ledger {
  import opened Model
  import opened Keys
  import opened Tracker
  import opened Indexes

  /** The session after a sequence of packets has been applied to it. */
  function ApplyAll(s: SessionView, pkts: seq<PacketEvent>): SessionView {
    if pkts == [] then s
    else Touch(ApplyAll(s, pkts[..|pkts| - 1]), pkts[|pkts| - 1])
  }

  function Uplink(pkts: seq<PacketEvent>): nat {
    if pkts == [] then 0
    else (if pkts[|pkts| - 1].dstPort == 443 then pkts[|pkts| - 1].length else 0) + Uplink(pkts[..|pkts| - 1])
  }

  function Downlink(pkts: seq<PacketEvent>): nat {
    if pkts == [] then 0
    else (if pkts[|pkts| - 1].dstPort == 443 then 0 else pkts[|pkts| - 1].length) + Downlink(pkts[..|pkts| - 1])
  }

  /** A request packet and every packet before the next request packet. */
  datatype Exchange = Exchange(opener: PacketEvent, tail: seq<PacketEvent>)

  predicate NoRequest(pkts: seq<PacketEvent>) {
    forall p <- pkts :: !OpensRequest(p)
  }

  predicate WellSplit(early: seq<PacketEvent>, xs: seq<Exchange>) {
    NoRequest(early) && forall x <- xs :: OpensRequest(x.opener) && NoRequest(x.tail)
  }

  function Packets(early: seq<PacketEvent>, xs: seq<Exchange>): seq<PacketEvent> {
    if xs == [] then early
    else Packets(early, xs[..|xs| - 1]) + [xs[|xs| - 1].opener] + xs[|xs| - 1].tail
  }

  /** The log an exchange leaves, as the n-th request of a session. */
  function LogOf(id: SessionId, n: int, x: Exchange): RequestView {
    var down := Downlink(x.tail);
    RequestView(RequestKeyText(id.sessionKey, n), id.sessionKey, OfEpoch(x.opener.epoch),
                x.opener.length, down, if down > 0 then x.opener.length + down else 0)
  }

  /** The logs of `t` are the exchanges `xs`, numbered on from the request count of `s`. */
  predicate LogsAre(s: SessionView, xs: seq<Exchange>, t: SessionView) {
    && t.id == s.id && t.requestCount == s.requestCount + |xs| && |t.logs| == |xs|
    && forall i | 0 <= i < |xs| :: t.logs[i] == LogOf(s.id, s.requestCount + i + 1, xs[i])
  }

  /** Every packet sequence splits into exchanges. */
  lemma {:induction false} SplitExists(pkts: seq<PacketEvent>) returns (early: seq<PacketEvent>, xs: seq<Exchange>)
    ensures WellSplit(early, xs) && Packets(early, xs) == pkts
  {
    if pkts == [] {
      early, xs := [], [];
    } else {
      var n := |pkts| - 1;
      early, xs := SplitExists(pkts[..n]);
      var p := pkts[n];
      assert pkts == pkts[..n] + [p];
      if OpensRequest(p) {
        assert (xs + [Exchange(p, [])])[..|xs|] == xs;
        xs := xs + [Exchange(p, [])];
      } else if xs == [] {
        early := early + [p];
      } else {
        var x := xs[|xs| - 1];
        var ys := xs[..|xs| - 1] + [Exchange(x.opener, x.tail + [p])];
        assert ys[..|ys| - 1] == xs[..|xs| - 1];
        assert Packets(early, ys) == Packets(early, xs) + [p];
        xs := ys;
      }
    }
  }

  lemma {:induction false} ApplyConcat(s: SessionView, a: seq<PacketEvent>, b: seq<PacketEvent>)
    ensures ApplyAll(s, a + b) == ApplyAll(ApplyAll(s, a), b)
  {
    if b == [] {
      assert a + b == a;
    } else {
      ApplyConcat(s, a, b[..|b| - 1]);
      assert (a + b)[..|a + b| - 1] == a + b[..|b| - 1];
    }
  }

  /** Packets that open no request change only the last log, crediting it with their downlink bytes. */
  lemma {:induction false} TailCredits(s: SessionView, pkts: seq<PacketEvent>)
    requires NoRequest(pkts)
    requires s.logs != [] ==> s.logs[|s.logs| - 1].downlinkBytes == 0 && s.logs[|s.logs| - 1].totalBytes == 0
    ensures ApplyAll(s, pkts).requestCount == s.requestCount && ApplyAll(s, pkts).id == s.id
    ensures s.logs == [] ==> ApplyAll(s, pkts).logs == []
    ensures s.logs != [] ==>
      var last := s.logs[|s.logs| - 1];
      var down := Downlink(pkts);
      ApplyAll(s, pkts).logs == s.logs[..|s.logs| - 1]
        + [last.(downlinkBytes := down, totalBytes := if down > 0 then last.uplinkBytes + down else 0)]
  {
    if pkts != [] {
      var n := |pkts| - 1;
      TailCredits(s, pkts[..n]);
      assert pkts[n] in pkts;
    } else if s.logs != [] {
      assert s.logs == s.logs[..|s.logs| - 1] + [s.logs[|s.logs| - 1]];
    }
  }

  /**
   The request logs of a session that started with none are exactly its
   exchanges: same number, numbered from the request count on, each with its
   opener's bytes uplink, its tail's bytes downlink, and a total that is their
   sum exactly when some downlink came and zero otherwise.
   */
  lemma {:induction false} LogsAreExchanges(s: SessionView, early: seq<PacketEvent>, xs: seq<Exchange>)
    requires s.logs == [] && WellSplit(early, xs)
    ensures LogsAre(s, xs, ApplyAll(s, Packets(early, xs)))
  {
    hide ApplyAll, Touch, LogOf;
    if xs == [] {
      TailCredits(s, early);
    } else {
      var n := |xs| - 1;
      var x := xs[n];
      assert x in xs && WellSplit(early, xs[..n]);
      LogsAreExchanges(s, early, xs[..n]);
      var before := Packets(early, xs[..n]);
      ApplyConcat(s, before, [x.opener]);
      ApplyConcat(s, before + [x.opener], x.tail);
      var t := ApplyAll(s, before);
      ExchangeAddsLog(t, x);
      var u := ApplyAll(s, Packets(early, xs));
      assert u == ApplyAll(ApplyAll(t, [x.opener]), x.tail);
      forall i | 0 <= i < |xs| ensures u.logs[i] == LogOf(s.id, s.requestCount + i + 1, xs[i]) {
        if i < n {
          assert t.logs[i] == LogOf(s.id, s.requestCount + i + 1, xs[..n][i]);
        }
      }
    }
  }

  /** One exchange appends exactly its log. */
  lemma {:induction false} ExchangeAddsLog(t: SessionView, x: Exchange)
    requires OpensRequest(x.opener) && NoRequest(x.tail)
    ensures var v := ApplyAll(ApplyAll(t, [x.opener]), x.tail);
      && v.id == t.id && v.requestCount == t.requestCount + 1
      && v.logs == t.logs + [LogOf(t.id, t.requestCount + 1, x)]
  {
    var u := ApplyAll(t, [x.opener]);
    assert [x.opener][..0] == [];
    assert u == Touch(ApplyAll(t, []), x.opener);
    assert u.logs == t.logs + [NewRequest(t.id.sessionKey, t.requestCount + 1, x.opener)];
    assert u.logs[..|t.logs|] == t.logs;
    TailCredits(u, x.tail);
  }

  function UplinkOf(logs: seq<RequestView>): int {
    if logs == [] then 0 else UplinkOf(logs[..|logs| - 1]) + logs[|logs| - 1].uplinkBytes
  }

  function DownlinkOf(logs: seq<RequestView>): int {
    if logs == [] then 0 else DownlinkOf(logs[..|logs| - 1]) + logs[|logs| - 1].downlinkBytes
  }

  /** Downlink bytes that came before the first request, and so belong to no log. */
  function EarlyDownlink(pkts: seq<PacketEvent>): nat {
    if pkts == [] then 0
    else EarlyDownlink(pkts[..|pkts| - 1])
         + if NoRequest(pkts) && pkts[|pkts| - 1].dstPort != 443 then pkts[|pkts| - 1].length else 0
  }

  /** The books of a session that had the counters of `s` and no log, and then received `pkts`. */
  predicate Balanced(s: SessionView, pkts: seq<PacketEvent>, t: SessionView) {
    CountersBalanced(s, pkts, t) && LogsBalanced(s, pkts, t)
  }

  predicate CountersBalanced(s: SessionView, pkts: seq<PacketEvent>, t: SessionView) {
    && t.id == s.id
    && t.packetCount - s.packetCount == |pkts|
    && t.uplinkBytes - s.uplinkBytes == Uplink(pkts)
    && t.downlinkBytes - s.downlinkBytes == Downlink(pkts)
    && t.totalBytes - s.totalBytes == (t.uplinkBytes - s.uplinkBytes) + (t.downlinkBytes - s.downlinkBytes)
    && t.requestCount - s.requestCount == |t.logs|
  }

  predicate LogsBalanced(s: SessionView, pkts: seq<PacketEvent>, t: SessionView) {
    && UplinkOf(t.logs) == Uplink(pkts)
    && DownlinkOf(t.logs) + EarlyDownlink(pkts) == Downlink(pkts)
    && (t.logs == [] <==> NoRequest(pkts))
    && Lines(s.id.sessionKey, s.requestCount, t.logs)
  }

  /** The logs carry the keys numbered on from `base`, in order. */
  predicate Lines(key: string, base: int, logs: seq<RequestView>) {
    forall i | 0 <= i < |logs| :: LogLine(logs[i], RequestKeyText(key, base + i + 1))
  }

  /** A log's total is uplink plus downlink exactly when its downlink is positive, and zero otherwise. */
  predicate LogLine(r: RequestView, key: string) {
    && r.requestKey == key
    && r.uplinkBytes > 0 && r.downlinkBytes >= 0
    && r.totalBytes == if r.downlinkBytes > 0 then r.uplinkBytes + r.downlinkBytes else 0
  }

  /** Applying packets keeps the books balanced. */
  lemma {:induction false} LedgerBalances(s: SessionView, pkts: seq<PacketEvent>)
    requires s.logs == []
    ensures Balanced(s, pkts, ApplyAll(s, pkts))
  {
    if pkts != [] {
      hide Touch, Balanced;
      var init, p := pkts[..|pkts| - 1], pkts[|pkts| - 1];
      assert pkts == init + [p];
      assert ApplyAll(s, pkts) == Touch(ApplyAll(s, init), p);
      hide ApplyAll;
      LedgerBalances(s, init);
      BalanceStep(s, init, ApplyAll(s, init), p);
    }
  }

  lemma BalanceStep(s: SessionView, pkts: seq<PacketEvent>, t: SessionView, p: PacketEvent)
    requires Balanced(s, pkts, t)
    ensures Balanced(s, pkts + [p], Touch(t, p))
  {
    var all := pkts + [p];
    assert all[..|pkts|] == pkts;
    assert CountersBalanced(s, all, Touch(t, p));
    LogStep(s, pkts, t, p);
  }

  lemma LogStep(s: SessionView, pkts: seq<PacketEvent>, t: SessionView, p: PacketEvent)
    requires Balanced(s, pkts, t)
    ensures LogsBalanced(s, pkts + [p], Touch(t, p))
  {
    BytesSnoc(pkts, p);
    NoRequestSnoc(pkts, p);
    if OpensRequest(p) {
      OpenLog(s, t, p);
    } else if p.dstPort != 443 && p.length > 0 && t.logs != [] {
      CreditLog(s, t, p);
    }
  }

  lemma {:induction false} BytesSnoc(pkts: seq<PacketEvent>, p: PacketEvent)
    ensures Uplink(pkts + [p]) == Uplink(pkts) + if p.dstPort == 443 then p.length else 0
    ensures Downlink(pkts + [p]) == Downlink(pkts) + if p.dstPort == 443 then 0 else p.length
    ensures EarlyDownlink(pkts + [p])
         == EarlyDownlink(pkts) + if NoRequest(pkts + [p]) && p.dstPort != 443 then p.length else 0
  {
    assert (pkts + [p])[..|pkts|] == pkts;
  }

  lemma OpenLog(s: SessionView, t: SessionView, p: PacketEvent)
    requires OpensRequest(p) && t.id == s.id && t.requestCount - s.requestCount == |t.logs|
    requires Lines(s.id.sessionKey, s.requestCount, t.logs)
    ensures var u := Touch(t, p);
      && UplinkOf(u.logs) == UplinkOf(t.logs) + p.length && DownlinkOf(u.logs) == DownlinkOf(t.logs)
      && u.logs != [] && Lines(s.id.sessionKey, s.requestCount, u.logs)
  {
    assert Touch(t, p).logs == t.logs + [NewRequest(t.id.sessionKey, t.requestCount + 1, p)];
    SumsSnoc(t.logs, NewRequest(t.id.sessionKey, t.requestCount + 1, p));
    LinesSnoc(s.id.sessionKey, s.requestCount, t.logs, NewRequest(t.id.sessionKey, t.requestCount + 1, p));
  }

  lemma CreditLog(s: SessionView, t: SessionView, p: PacketEvent)
    requires p.dstPort != 443 && p.length > 0 && t.logs != []
    requires Lines(s.id.sessionKey, s.requestCount, t.logs)
    ensures var u := Touch(t, p);
      && UplinkOf(u.logs) == UplinkOf(t.logs) && DownlinkOf(u.logs) == DownlinkOf(t.logs) + p.length
      && u.logs != [] && Lines(s.id.sessionKey, s.requestCount, u.logs)
  {
    var n := |t.logs| - 1;
    var r := AddDownlink(t.logs[n], p.length);
    assert Touch(t, p).logs == t.logs[..n] + [r];
    assert LogLine(t.logs[n], RequestKeyText(s.id.sessionKey, s.requestCount + n + 1));
    SumsSnoc(t.logs[..n], r);
    LinesSnoc(s.id.sessionKey, s.requestCount, t.logs[..n], r);
  }

  lemma LinesSnoc(key: string, base: int, logs: seq<RequestView>, r: RequestView)
    requires Lines(key, base, logs) && LogLine(r, RequestKeyText(key, base + |logs| + 1))
    ensures Lines(key, base, logs + [r])
  {
  }

  lemma {:induction false} SumsSnoc(logs: seq<RequestView>, r: RequestView)
    ensures UplinkOf(logs + [r]) == UplinkOf(logs) + r.uplinkBytes
    ensures DownlinkOf(logs + [r]) == DownlinkOf(logs) + r.downlinkBytes
  {
    assert (logs + [r])[..|logs|] == logs;
  }

  lemma NoRequestSnoc(pkts: seq<PacketEvent>, p: PacketEvent)
    ensures NoRequest(pkts + [p]) <==> NoRequest(pkts) && !OpensRequest(p)
  {
    if NoRequest(pkts + [p]) {
      forall q <- pkts ensures !OpensRequest(q) {
        assert q in pkts + [p];
      }
      assert p in pkts + [p];
    }
  }

  // ---- rows already written ----------------------------------------------

  /** What later packets do to logs already there: only the last is credited, with `early` downlink bytes. */
  predicate Grown(before: seq<RequestView>, after: seq<RequestView>, early: nat) {
    && |before| <= |after|
    && (forall i | 0 <= i < |before| - 1 :: after[i] == before[i])
    && (before != [] ==>
          var i := |before| - 1;
          && after[i].downlinkBytes == before[i].downlinkBytes + early
          && after[i].(downlinkBytes := 0, totalBytes := 0) == before[i].(downlinkBytes := 0, totalBytes := 0)
          && (early == 0 ==> after[i] == before[i]))
  }

  lemma GrowStep(before: seq<RequestView>, t: SessionView, p: PacketEvent, early: nat)
    requires Grown(before, t.logs, early)
    ensures Grown(before, Touch(t, p).logs,
      early + if |t.logs| == |before| && p.dstPort != 443 then p.length else 0)
  {
  }

  /**
   A request log keeps growing after its row was inserted: packets that arrive
   before the session's next request are credited to the last log only, and by
   exactly their downlink bytes.
   */
  lemma {:induction false} LogsGrow(s: SessionView, pkts: seq<PacketEvent>)
    ensures Grown(s.logs, ApplyAll(s, pkts).logs, EarlyDownlink(pkts))
    ensures |ApplyAll(s, pkts).logs| == |s.logs| <==> NoRequest(pkts)
  {
    if pkts != [] {
      var n := |pkts| - 1;
      var t := ApplyAll(s, pkts[..n]);
      LogsGrow(s, pkts[..n]);
      GrowStep(s.logs, t, pkts[n], EarlyDownlink(pkts[..n]));
      NoRequestSnoc(pkts[..n], pkts[n]);
      assert pkts == pkts[..n] + [pkts[n]];
      hide Grown;
      assert |Touch(t, pkts[n]).logs| == |t.logs| + if OpensRequest(pkts[n]) then 1 else 0;
    }
  }

  /**
   The row written for a log at the end of a job is its final content exactly
   when a later request had already been opened or no downlink byte came before
   the next request; otherwise the row is short by those bytes.
   */
  lemma {:induction false} WrittenRowFinal(s: SessionView, pkts: seq<PacketEvent>, i: nat)
    requires i < |s.logs|
    ensures |ApplyAll(s, pkts).logs| >= |s.logs|
    ensures ApplyAll(s, pkts).logs[i] == s.logs[i] <==> i < |s.logs| - 1 || EarlyDownlink(pkts) == 0
    ensures i == |s.logs| - 1 ==>
      ApplyAll(s, pkts).logs[i].downlinkBytes == s.logs[i].downlinkBytes + EarlyDownlink(pkts)
  {
    LogsGrow(s, pkts);
  }

  // ---- every session of every run ----------------------------------------

  /** A session's start (a fresh registration or a restored row) and the packets applied to it since. */
  datatype Trail = Trail(origin: SessionView, applied: seq<PacketEvent>)

  type Trails = map<string, Trail>

  function TrailRegister(env: Env, hints: map<FlowKey, string>, st: State, tr: Trails, evt: PacketEvent): Trails {
    var s := NewSession(env, evt, LookupHint(env, hints, evt));
    if Registers(env, hints, st, evt) then tr[s.id.sessionKey := Trail(s, [])] else tr
  }

  function TrailStep(env: Env, hints: map<FlowKey, string>, st: State, tr: Trails, evt: PacketEvent): Trails {
    var key, tr' := Target(env, hints, st, evt), TrailRegister(env, hints, st, tr, evt);
    if key != "" && key in tr' then tr'[key := tr'[key].(applied := tr'[key].applied + [evt])] else tr'
  }

  function TrailMerge(env: Env, hints: map<FlowKey, string>, st: State, tr: Trails, evts: seq<PacketEvent>): Trails {
    if evts == [] then tr
    else
      var init := evts[..|evts| - 1];
      TrailStep(env, hints, Merge(env, hints, st, init), TrailMerge(env, hints, st, tr, init), evts[|evts| - 1])
  }

  /** A restored session has no packet behind it. */
  ghost function NewTrails(sessions: map<string, SessionView>, keys: set<string>): (tr: Trails)
    requires keys <= sessions.Keys
    ensures tr.Keys == keys && forall k <- tr :: tr[k] == Trail(sessions[k], [])
  {
    if keys == {} then map[]
    else
      var k :| k in keys;
      NewTrails(sessions, keys - {k})[k := Trail(sessions[k], [])]
  }

  /** The trails of a run from restored rows; a sweep applies no packet. */
  ghost function TrailRun(env: Env, rows: seq<SessionView>, ops: seq<Op>): Trails {
    if ops == [] then NewTrails(Restore(EMPTY, rows).sessions, Restore(EMPTY, rows).sessions.Keys)
    else
      var init := ops[..|ops| - 1];
      match ops[|ops| - 1]
      case MergeOp(matcher, hints, evts) =>
        TrailMerge(env.With(matcher), hints, Run(env, Restore(EMPTY, rows), init), TrailRun(env, rows, init), evts)
      case SweepOp(_) => TrailRun(env, rows, init)
  }

  /** A session is what its trail makes of it, and its trail holds only TCP packets of its connection. */
  predicate Follows(s: SessionView, t: Trail) {
    && t.origin.logs == []
    && t.origin.id == s.id
    && s == ApplyAll(t.origin, t.applied)
    && forall p <- t.applied :: p.protocol.Tcp? && SamePair(s.id.flow, p.Flow())
  }

  predicate Tracked(st: State, tr: Trails) {
    forall k <- st.sessions :: k in tr && Follows(st.sessions[k], tr[k])
  }

  lemma FollowsTouch(s: SessionView, t: Trail, evt: PacketEvent)
    requires Follows(s, t) && evt.protocol.Tcp? && SamePair(s.id.flow, evt.Flow())
    ensures Follows(Touch(s, evt), t.(applied := t.applied + [evt]))
  {
    var a := t.applied + [evt];
    assert a[..|a| - 1] == t.applied;
  }

  /** The packet goes to the session of its own connection. */
  lemma TargetPair(env: Env, hints: map<FlowKey, string>, st: State, evt: PacketEvent)
    requires Inv(st)
    requires Target(env, hints, st, evt) != ""
    ensures evt.protocol.Tcp?
    ensures Target(env, hints, st, evt) in FindOrRegister(env, hints, st, evt).sessions
    ensures SamePair(FindOrRegister(env, hints, st, evt).sessions[Target(env, hints, st, evt)].id.flow, evt.Flow())
  {
    if !Registers(env, hints, st, evt) {
      var f := evt.Flow();
      if Get(st.flowMap, f) == "" {
        assert f.Reverse() in st.flowMap;
      }
    }
  }

  lemma RegisterTracked(env: Env, hints: map<FlowKey, string>, st: State, tr: Trails, evt: PacketEvent)
    requires Tracked(st, tr)
    ensures Tracked(FindOrRegister(env, hints, st, evt), TrailRegister(env, hints, st, tr, evt))
  {
    var s := NewSession(env, evt, LookupHint(env, hints, evt));
    assert Follows(s, Trail(s, []));
  }

  lemma TouchTracked(st: State, tr: Trails, key: string, evt: PacketEvent)
    requires Tracked(st, tr) && key in st.sessions
    requires evt.protocol.Tcp? && SamePair(st.sessions[key].id.flow, evt.Flow())
    ensures key in tr
    ensures Tracked(st.(sessions := st.sessions[key := Touch(st.sessions[key], evt)]),
                    tr[key := tr[key].(applied := tr[key].applied + [evt])])
  {
    FollowsTouch(st.sessions[key], tr[key], evt);
  }

  lemma StepTracked(env: Env, hints: map<FlowKey, string>, st: State, tr: Trails, evt: PacketEvent)
    requires PlainEnv(env) && PlainPacket(evt) && Inv(st) && Tracked(st, tr)
    ensures Tracked(Step(env, hints, st, evt), TrailStep(env, hints, st, tr, evt))
  {
    var key := Target(env, hints, st, evt);
    RegisterTracked(env, hints, st, tr, evt);
    if key != "" {
      TargetPair(env, hints, st, evt);
      TouchTracked(FindOrRegister(env, hints, st, evt), TrailRegister(env, hints, st, tr, evt), key, evt);
    }
  }

  lemma {:induction false} MergeTracked(env: Env, hints: map<FlowKey, string>, st: State, tr: Trails,
                                        evts: seq<PacketEvent>)
    requires PlainEnv(env) && Inv(st) && Tracked(st, tr) && forall e <- evts :: PlainPacket(e)
    ensures Tracked(Merge(env, hints, st, evts), TrailMerge(env, hints, st, tr, evts))
  {
    if evts != [] {
      var init := evts[..|evts| - 1];
      MergeTracked(env, hints, st, tr, init);
      MergeKeepsInv(env, hints, st, init);
      StepTracked(env, hints, Merge(env, hints, st, init), TrailMerge(env, hints, st, tr, init), evts[|evts| - 1]);
    }
  }

  lemma {:induction false} RunTracked(env: Env, rows: seq<SessionView>, ops: seq<Op>)
    requires PlainEnv(env) && Restorable(rows) && forall op <- ops :: PlainOp(op)
    requires forall i | 0 <= i < |rows| :: rows[i].logs == []
    ensures Tracked(Run(env, Restore(EMPTY, rows), ops), TrailRun(env, rows, ops))
  {
    if ops == [] {
      RestoredSessions(rows);
    } else {
      var n := |ops| - 1;
      RunTracked(env, rows, ops[..n]);
      ReachableInv(env, rows, ops[..n]);
      assert ops[n] in ops;
      match ops[n]
      case MergeOp(matcher, hints, evts) =>
        MergeTracked(env.With(matcher), hints, Run(env, Restore(EMPTY, rows), ops[..n]),
                     TrailRun(env, rows, ops[..n]), evts);
      case SweepOp(_) =>
    }
  }

  /**
   In every run, every live session's counters and logs balance against the
   packets applied to it since it was registered or restored, and its logs are
   the exchanges of those packets, however they are split.
   */
  lemma {:induction false} EveryLedgerBalances(env: Env, rows: seq<SessionView>, ops: seq<Op>, key: string)
    requires PlainEnv(env) && Restorable(rows) && forall op <- ops :: PlainOp(op)
    requires forall i | 0 <= i < |rows| :: rows[i].logs == []
    requires key in Run(env, Restore(EMPTY, rows), ops).sessions
    ensures key in TrailRun(env, rows, ops)
    ensures var s, t := Run(env, Restore(EMPTY, rows), ops).sessions[key], TrailRun(env, rows, ops)[key];
      && Balanced(t.origin, t.applied, s)
      && (forall p <- t.applied :: p.protocol.Tcp? && SamePair(s.id.flow, p.Flow()))
      && forall early, xs | WellSplit(early, xs) && Packets(early, xs) == t.applied :: LogsAre(t.origin, xs, s)
  {
    RunTracked(env, rows, ops);
    var t := TrailRun(env, rows, ops)[key];
    LedgerBalances(t.origin, t.applied);
    forall early, xs | WellSplit(early, xs) && Packets(early, xs) == t.applied
      ensures LogsAre(t.origin, xs, Run(env, Restore(EMPTY, rows), ops).sessions[key])
    {
      LogsAreExchanges(t.origin, early, xs);
    }
  }
}
