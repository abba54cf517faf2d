/**
 The two flow indexes in every reachable state: they mirror each other, each
 binding names a live session with that four-tuple, registration never
 overwrites a binding, and a sweep removes exactly the idle sessions with
 their own bindings.
 */
module Indexes {
  import opened Model
  import opened Keys
  import opened Tracker

  predicate Mirrored(st: State) {
    && (forall f <- st.flowMap :: f.Reverse() in st.revMap && st.revMap[f.Reverse()] == st.flowMap[f])
    && (forall f <- st.revMap :: f.Reverse() in st.flowMap && st.flowMap[f.Reverse()] == st.revMap[f])
  }

  /** Every binding names a live session that has exactly the bound four-tuple. */
  predicate BindingsLive(st: State) {
    forall f <- st.flowMap :: st.flowMap[f] in st.sessions && st.sessions[st.flowMap[f]].id.flow == f
  }

  /** A session is stored under its own key, and that key is one `registerSession` printed. */
  ghost predicate Keyed(st: State) {
    && (forall k <- st.sessions :: k != "" && st.sessions[k].id.sessionKey == k)
    && (forall k {:trigger PrintedKey(st.sessions[k].id)} | k in st.sessions :: PrintedKey(st.sessions[k].id))
  }

  ghost predicate PrintedKey(id: SessionId) {
    && Lacks(id.iface, '|')
    && PlainFlow(id.flow)
    && exists second: int :: id.sessionKey == SessionKeyText(id.iface, id.flow, id.domain, second)
  }

  ghost predicate Inv(st: State) {
    Mirrored(st) && BindingsLive(st) && Keyed(st)
  }

  predicate PlainEnv(env: Env) {
    Lacks(env.iface, '|')
  }

  /** Addresses are dotted quads, so they hold no separator. */
  predicate PlainPacket(evt: PacketEvent) {
    PlainFlow(evt.Flow())
  }

  ghost predicate PlainOp(op: Op) {
    op.MergeOp? ==> forall e <- op.evts :: PlainPacket(e)
  }

  /** No two live sessions share a connection, and every live session is bound. */
  predicate Unshared(st: State) {
    && (forall k <- st.sessions :: st.sessions[k].id.flow in st.flowMap && st.flowMap[st.sessions[k].id.flow] == k)
    && (forall f <- st.flowMap :: f.Reverse() in st.flowMap ==> f.Reverse() == f)
  }

  lemma PrintedKeyNonEmpty(id: SessionId)
    requires PrintedKey(id)
    ensures id.sessionKey != ""
  {
  }

  /** Two sessions with one printed key have one four-tuple, whatever their domains hold. */
  lemma SameKeySameFlow(a: SessionId, b: SessionId)
    requires PrintedKey(a) && PrintedKey(b) && a.sessionKey == b.sessionKey
    ensures a.flow == b.flow && a.domain == b.domain && a.iface == b.iface
  {
    var s: int :| a.sessionKey == SessionKeyText(a.iface, a.flow, a.domain, s);
    var t: int :| b.sessionKey == SessionKeyText(b.iface, b.flow, b.domain, t);
    SessionKeyInjective(a.iface, a.flow, a.domain, s, b.iface, b.flow, b.domain, t);
  }

  lemma NewSessionPrinted(env: Env, evt: PacketEvent, hint: Hint)
    requires PlainEnv(env) && PlainPacket(evt)
    ensures PrintedKey(NewSession(env, evt, hint).id)
    ensures NewKey(env, evt, hint) != ""
  {
    assert NewSession(env, evt, hint).id.sessionKey
        == SessionKeyText(env.iface, evt.ClientFlow(), hint.domain, Trunc(evt.epoch));
  }

  /** A packet that registers a session is applied to it. */
  lemma NewlyRegistered(env: Env, hints: map<FlowKey, string>, st: State, evt: PacketEvent)
    requires PlainEnv(env) && PlainPacket(evt) && Registers(env, hints, st, evt)
    ensures var s := NewSession(env, evt, LookupHint(env, hints, evt));
      var key := NewKey(env, evt, LookupHint(env, hints, evt));
      && Target(env, hints, st, evt) == key != ""
      && Step(env, hints, st, evt).sessions == st.sessions[key := Touch(s, evt)]
  {
    hide LookupHint, SessionKeyText, Touch;
    NewSessionPrinted(env, evt, LookupHint(env, hints, evt));
  }

  /** A registration binds a connection that had no binding in either index. */
  lemma RegisterOverwritesNothing(st: State, evt: PacketEvent)
    requires Inv(st) && Find(st, evt.Flow()) == ""
    ensures evt.ClientFlow() !in st.flowMap && evt.ClientFlow().Reverse() !in st.flowMap
    ensures evt.ClientFlow() !in st.revMap && evt.ClientFlow().Reverse() !in st.revMap
  {
  }

  /** The key a registration prints is bound to no flow. */
  lemma NewKeyUnbound(env: Env, st: State, evt: PacketEvent, hint: Hint)
    requires PlainEnv(env) && PlainPacket(evt)
    requires Inv(st) && Find(st, evt.Flow()) == ""
    ensures forall f <- st.flowMap :: st.flowMap[f] != NewKey(env, evt, hint)
  {
    RegisterOverwritesNothing(st, evt);
    NewSessionPrinted(env, evt, hint);
    forall f <- st.flowMap ensures st.flowMap[f] != NewKey(env, evt, hint) {
      var k := st.flowMap[f];
      if k == NewKey(env, evt, hint) {
        SameKeySameFlow(st.sessions[k].id, NewSession(env, evt, hint).id);
      }
    }
  }

  /** The key of a session to be bound names no other connection yet. */
  predicate KeyFree(st: State, id: SessionId) {
    forall f <- st.flowMap :: st.flowMap[f] == id.sessionKey ==> f == id.flow
  }

  lemma BindMirrored(st: State, s: SessionView)
    requires Mirrored(st)
    ensures Mirrored(Bind(st, s))
  {
    var st' := Bind(st, s);
    var g, k := s.id.flow, s.id.sessionKey;
    MirroredUpdate(st.flowMap, st.revMap, g, k);
    assert st'.flowMap == st.flowMap[g := k] && st'.revMap == st.revMap[g.Reverse() := k];
  }

  lemma MirroredUpdate(m: map<FlowKey, string>, r: map<FlowKey, string>, g: FlowKey, k: string)
    requires forall f <- m :: f.Reverse() in r && r[f.Reverse()] == m[f]
    requires forall f <- r :: f.Reverse() in m && m[f.Reverse()] == r[f]
    ensures var m', r' := m[g := k], r[g.Reverse() := k];
      && (forall f <- m' :: f.Reverse() in r' && r'[f.Reverse()] == m'[f])
      && (forall f <- r' :: f.Reverse() in m' && m'[f.Reverse()] == r'[f])
  {
    forall f: FlowKey ensures f.Reverse().Reverse() == f && (f.Reverse() == g.Reverse() <==> f == g) {
    }
  }

  lemma BindKeepsInv(st: State, s: SessionView)
    requires Inv(st) && PrintedKey(s.id) && KeyFree(st, s.id)
    ensures Inv(Bind(st, s))
  {
    hide PrintedKey;
    BindMirrored(st, s);
    PrintedKeyNonEmpty(s.id);
    var st' := Bind(st, s);
    assert BindingsLive(st') by {
      forall f <- st'.flowMap ensures st'.flowMap[f] in st'.sessions && st'.sessions[st'.flowMap[f]].id.flow == f {
        if f != s.id.flow {
          assert f in st.flowMap && st.flowMap[f] != s.id.sessionKey;
        }
      }
    }
    assert Keyed(st');
  }

  lemma RegisterKeepsInv(env: Env, st: State, evt: PacketEvent, hint: Hint)
    requires PlainEnv(env) && PlainPacket(evt)
    requires Inv(st) && Find(st, evt.Flow()) == ""
    ensures Inv(Register(env, st, evt, hint))
  {
    NewKeyUnbound(env, st, evt, hint);
    NewSessionPrinted(env, evt, hint);
    BindKeepsInv(st, NewSession(env, evt, hint));
  }

  lemma StepKeepsInv(env: Env, hints: map<FlowKey, string>, st: State, evt: PacketEvent)
    requires PlainEnv(env) && PlainPacket(evt) && Inv(st)
    ensures Inv(Step(env, hints, st, evt))
  {
    if Registers(env, hints, st, evt) {
      RegisterKeepsInv(env, st, evt, LookupHint(env, hints, evt));
    }
    var st' := FindOrRegister(env, hints, st, evt);
    assert Inv(st');
    TouchKeepsInv(st', Target(env, hints, st, evt), evt);
  }

  lemma TouchKeepsInv(st: State, key: string, evt: PacketEvent)
    requires Inv(st)
    ensures key in st.sessions ==> Inv(st.(sessions := st.sessions[key := Touch(st.sessions[key], evt)]))
  {
  }

  lemma SweepKeepsInv(env: Env, st: State, epoch: real)
    requires Inv(st)
    ensures Inv(Sweep(env, st, epoch))
  {
  }

  lemma {:induction false} MergeKeepsInv(env: Env, hints: map<FlowKey, string>, st: State, evts: seq<PacketEvent>)
    requires PlainEnv(env) && Inv(st) && forall e <- evts :: PlainPacket(e)
    ensures Inv(Merge(env, hints, st, evts))
  {
    if evts != [] {
      MergeKeepsInv(env, hints, st, evts[..|evts| - 1]);
      StepKeepsInv(env, hints, Merge(env, hints, st, evts[..|evts| - 1]), evts[|evts| - 1]);
    }
  }

  predicate DistinctKeys(rows: seq<SessionView>) {
    forall i, j | 0 <= i < j < |rows| :: rows[i].id.sessionKey != rows[j].id.sessionKey
  }

  /** Rows loaded at start-up: keys are unique and were printed by `registerSession`. */
  ghost predicate Restorable(rows: seq<SessionView>) {
    DistinctKeys(rows) && forall i | 0 <= i < |rows| :: PrintedKey(rows[i].id)
  }

  predicate HasKey(rows: seq<SessionView>, key: string) {
    exists i :: 0 <= i < |rows| && rows[i].id.sessionKey == key
  }

  lemma {:induction false} RestoredSessions(rows: seq<SessionView>)
    requires DistinctKeys(rows)
    ensures forall k :: k in Restore(EMPTY, rows).sessions <==> HasKey(rows, k)
    ensures forall i | 0 <= i < |rows| :: rows[i].id.sessionKey in Restore(EMPTY, rows).sessions
                                       && Restore(EMPTY, rows).sessions[rows[i].id.sessionKey] == rows[i]
  {
    if rows != [] {
      var n := |rows| - 1;
      var rest := rows[..n];
      RestoredSessions(rest);
      var st, st' := Restore(EMPTY, rest), Restore(EMPTY, rows);
      assert st'.sessions == st.sessions[rows[n].id.sessionKey := rows[n]];
      assert rows == rest + [rows[n]];
      forall k ensures k in st'.sessions <==> HasKey(rows, k) {
        HasKeyAppend(rest, rows[n], k);
      }
      forall i | 0 <= i < |rows|
        ensures rows[i].id.sessionKey in st'.sessions && st'.sessions[rows[i].id.sessionKey] == rows[i]
      {
        if i < n {
          assert rest[i] == rows[i] && rows[i].id.sessionKey != rows[n].id.sessionKey;
        }
      }
    }
  }

  lemma HasKeyAppend(rest: seq<SessionView>, s: SessionView, k: string)
    ensures HasKey(rest + [s], k) <==> HasKey(rest, k) || k == s.id.sessionKey
  {
    if HasKey(rest, k) {
      var i :| 0 <= i < |rest| && rest[i].id.sessionKey == k;
      assert (rest + [s])[i].id.sessionKey == k;
    }
    assert (rest + [s])[|rest|] == s;
  }

  lemma PrefixLacksLastKey(rows: seq<SessionView>)
    requires DistinctKeys(rows) && rows != []
    ensures DistinctKeys(rows[..|rows| - 1])
    ensures !HasKey(rows[..|rows| - 1], rows[|rows| - 1].id.sessionKey)
  {
  }

  /** Restoring keeps the indexes right even when two rows share a four-tuple: the later one is bound. */
  lemma {:induction false} RestoreEstablishesInv(rows: seq<SessionView>)
    requires Restorable(rows)
    ensures Inv(Restore(EMPTY, rows))
  {
    if rows != [] {
      var n := |rows| - 1;
      PrefixLacksLastKey(rows);
      RestoreEstablishesInv(rows[..n]);
      RestoredSessions(rows[..n]);
      BindKeepsInv(Restore(EMPTY, rows[..n]), rows[n]);
    }
  }

  /** Every state reached from a restore, by any merges and sweeps in any order, satisfies the invariant. */
  lemma {:induction false} ReachableInv(env: Env, rows: seq<SessionView>, ops: seq<Op>)
    requires PlainEnv(env) && Restorable(rows) && forall op <- ops :: PlainOp(op)
    ensures Inv(Run(env, Restore(EMPTY, rows), ops))
  {
    if ops == [] {
      RestoreEstablishesInv(rows);
    } else {
      var n := |ops| - 1;
      ReachableInv(env, rows, ops[..n]);
      assert ops[n] in ops;
      var st := Run(env, Restore(EMPTY, rows), ops[..n]);
      match ops[n]
      case MergeOp(matcher, hints, evts) => MergeKeepsInv(env.With(matcher), hints, st, evts);
      case SweepOp(epoch) => SweepKeepsInv(env, st, epoch);
    }
  }

  /**
   What a sweep removes, in any reachable state: a session goes exactly when it
   is idle, and a binding goes exactly when the session it names is idle, in
   both indexes.
   */
  lemma SweepExact(env: Env, st: State, epoch: real)
    requires Inv(st)
    ensures forall k :: k in Sweep(env, st, epoch).sessions <==> k in st.sessions && !Idle(env, st.sessions[k], epoch)
    ensures forall k <- Sweep(env, st, epoch).sessions :: Sweep(env, st, epoch).sessions[k] == st.sessions[k]
    ensures forall k :: k in Expired(env, st, epoch) <==> k in st.sessions && Idle(env, st.sessions[k], epoch)
    ensures forall f :: f in Sweep(env, st, epoch).flowMap
                    <==> f in st.flowMap && !Idle(env, st.sessions[st.flowMap[f]], epoch)
    ensures forall f :: f in Sweep(env, st, epoch).revMap
                    <==> f in st.revMap && f.Reverse() in st.flowMap && !Idle(env, st.sessions[st.revMap[f]], epoch)
    ensures forall f <- Sweep(env, st, epoch).flowMap :: Sweep(env, st, epoch).flowMap[f] == st.flowMap[f]
    ensures forall f <- Sweep(env, st, epoch).revMap :: Sweep(env, st, epoch).revMap[f] == st.revMap[f]
  {
  }

  // ---- the index agrees with a scan ------------------------------------

  /** The reference lookup: every live session whose end points are those of the flow. */
  function Scan(st: State, f: FlowKey): set<string> {
    set k | k in st.sessions && SamePair(st.sessions[k].id.flow, f)
  }

  /** Without shared connections the two-map lookup is the scan: it finds the one match, or nothing. */
  lemma FindIsScan(st: State, f: FlowKey)
    requires Inv(st) && Unshared(st)
    ensures Scan(st, f) == if Find(st, f) == "" then {} else {Find(st, f)}
  {
    forall k | k in Scan(st, f) ensures k == Find(st, f) {
      var g := st.sessions[k].id.flow;
      assert g in st.flowMap && st.flowMap[g] == k;
      assert g.Reverse() in st.revMap;
      if f == g {
        assert Get(st.flowMap, f) == k;
      } else {
        assert f == g.Reverse();
        assert f !in st.flowMap;
        assert Get(st.revMap, f) == k;
      }
    }
    if Find(st, f) != "" {
      if Get(st.flowMap, f) != "" {
        assert st.sessions[Find(st, f)].id.flow == f;
      } else {
        assert f.Reverse() in st.flowMap && st.flowMap[f.Reverse()] == Find(st, f);
      }
    }
  }

  /** Binding a session whose connection and key are both new keeps connections unshared. */
  lemma BindKeepsUnshared(st: State, s: SessionView)
    requires Unshared(st)
    requires s.id.flow !in st.flowMap && s.id.flow.Reverse() !in st.flowMap
    requires s.id.sessionKey !in st.sessions
    ensures Unshared(Bind(st, s))
  {
    var st' := Bind(st, s);
    forall k <- st'.sessions
      ensures st'.sessions[k].id.flow in st'.flowMap && st'.flowMap[st'.sessions[k].id.flow] == k
    {
      if k != s.id.sessionKey {
        assert k in st.sessions && st.sessions[k].id.flow in st.flowMap;
      }
    }
    forall f <- st'.flowMap | f.Reverse() in st'.flowMap ensures f.Reverse() == f {
      if f != s.id.flow && f.Reverse() != s.id.flow {
        assert f in st.flowMap && f.Reverse() in st.flowMap;
      }
    }
  }

  lemma StepKeepsUnshared(env: Env, hints: map<FlowKey, string>, st: State, evt: PacketEvent)
    requires PlainEnv(env) && PlainPacket(evt) && Inv(st) && Unshared(st)
    ensures Unshared(Step(env, hints, st, evt))
  {
    if Registers(env, hints, st, evt) {
      RegisterKeepsUnshared(env, st, evt, LookupHint(env, hints, evt));
    }
    TouchKeepsUnshared(FindOrRegister(env, hints, st, evt), Target(env, hints, st, evt), evt);
  }

  lemma RegisterKeepsUnshared(env: Env, st: State, evt: PacketEvent, hint: Hint)
    requires PlainEnv(env) && PlainPacket(evt) && Inv(st) && Unshared(st)
    requires Find(st, evt.Flow()) == ""
    ensures NewKey(env, evt, hint) !in st.sessions
    ensures Unshared(Register(env, st, evt, hint))
  {
    RegisterOverwritesNothing(st, evt);
    NewKeyUnbound(env, st, evt, hint);
    var k := NewKey(env, evt, hint);
    assert k !in st.sessions;
    BindKeepsUnshared(st, NewSession(env, evt, hint));
  }

  lemma TouchKeepsUnshared(st: State, key: string, evt: PacketEvent)
    requires Unshared(st)
    ensures key in st.sessions ==> Unshared(st.(sessions := st.sessions[key := Touch(st.sessions[key], evt)]))
  {
  }

  lemma SweepKeepsUnshared(env: Env, st: State, epoch: real)
    requires Inv(st) && Unshared(st)
    ensures Unshared(Sweep(env, st, epoch))
  {
  }

  lemma {:induction false} MergeKeepsUnshared(env: Env, hints: map<FlowKey, string>, st: State, evts: seq<PacketEvent>)
    requires PlainEnv(env) && Inv(st) && Unshared(st) && forall e <- evts :: PlainPacket(e)
    ensures Unshared(Merge(env, hints, st, evts))
  {
    if evts != [] {
      var init := evts[..|evts| - 1];
      MergeKeepsUnshared(env, hints, st, init);
      MergeKeepsInv(env, hints, st, init);
      StepKeepsUnshared(env, hints, Merge(env, hints, st, init), evts[|evts| - 1]);
    }
  }

  /** Rows of which no two name the same connection. */
  predicate DistinctPairs(rows: seq<SessionView>) {
    forall i, j | 0 <= i < j < |rows| :: !SamePair(rows[i].id.flow, rows[j].id.flow)
  }

  lemma {:induction false} RestoredBindings(rows: seq<SessionView>, f: FlowKey)
    requires f in Restore(EMPTY, rows).flowMap
    ensures exists i :: 0 <= i < |rows| && rows[i].id.flow == f
  {
    var n := |rows| - 1;
    if rows[n].id.flow != f {
      RestoredBindings(rows[..n], f);
      var i :| 0 <= i < n && rows[..n][i].id.flow == f;
      assert rows[i].id.flow == f;
    }
  }

  lemma {:induction false} RestoreUnshared(rows: seq<SessionView>)
    requires DistinctKeys(rows) && DistinctPairs(rows)
    ensures Unshared(Restore(EMPTY, rows))
  {
    if rows != [] {
      var n := |rows| - 1;
      var st := Restore(EMPTY, rows[..n]);
      PrefixLacksLastKey(rows);
      RestoreUnshared(rows[..n]);
      RestoredSessions(rows[..n]);
      assert rows[n].id.sessionKey !in st.sessions;
      forall f <- st.flowMap ensures !SamePair(f, rows[n].id.flow) {
        RestoredBindings(rows[..n], f);
        var i :| 0 <= i < n && rows[..n][i].id.flow == f;
        assert rows[i].id.flow == f;
      }
      assert rows[n].id.flow.Reverse() !in st.flowMap by {
        if rows[n].id.flow.Reverse() in st.flowMap {
          assert SamePair(rows[n].id.flow.Reverse(), rows[n].id.flow);
        }
      }
      BindKeepsUnshared(st, rows[n]);
      assert Restore(EMPTY, rows) == Bind(st, rows[n]);
    }
  }

  /** In every state reached from rows that name distinct connections, lookup equals a scan of all sessions. */
  lemma {:induction false} ReachableFindIsScan(env: Env, rows: seq<SessionView>, ops: seq<Op>, f: FlowKey)
    requires PlainEnv(env) && Restorable(rows) && DistinctPairs(rows) && forall op <- ops :: PlainOp(op)
    ensures var st := Run(env, Restore(EMPTY, rows), ops);
            Unshared(st) && Scan(st, f) == if Find(st, f) == "" then {} else {Find(st, f)}
  {
    ReachableInv(env, rows, ops);
    ReachableUnshared(env, rows, ops);
    FindIsScan(Run(env, Restore(EMPTY, rows), ops), f);
  }

  lemma {:induction false} ReachableUnshared(env: Env, rows: seq<SessionView>, ops: seq<Op>)
    requires PlainEnv(env) && Restorable(rows) && DistinctPairs(rows) && forall op <- ops :: PlainOp(op)
    ensures Unshared(Run(env, Restore(EMPTY, rows), ops))
  {
    if ops == [] {
      RestoreUnshared(rows);
    } else {
      var n := |ops| - 1;
      ReachableUnshared(env, rows, ops[..n]);
      ReachableInv(env, rows, ops[..n]);
      assert ops[n] in ops;
      var st := Run(env, Restore(EMPTY, rows), ops[..n]);
      match ops[n]
      case MergeOp(matcher, hints, evts) => MergeKeepsUnshared(env.With(matcher), hints, st, evts);
      case SweepOp(epoch) => SweepKeepsUnshared(env, st, epoch);
    }
  }
}
