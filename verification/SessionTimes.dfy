/**
 Where a live session comes from and what its times and status say.  A session
 is a restored row, or was opened by the first packet applied to it, with the
 name that packet's hint gives; it is closed exactly when a packet closed it, it
 was last seen at its last packet, and a sweep drops it by that time alone.
 */
module SessionTimes {
  import opened Model
  import opened Keys
  import opened Tracker
  import opened Indexes
  import opened Ledger

  // ---- times and status ------------------------------------------------------

  predicate Closes(pkts: seq<PacketEvent>) {
    exists p <- pkts :: p.isClose
  }

  /** The last packet that closes is `pkts[i]`. */
  predicate LastCloseAt(pkts: seq<PacketEvent>, i: nat) {
    i < |pkts| && pkts[i].isClose && forall j | i < j < |pkts| :: !pkts[j].isClose
  }

  /** What the packets applied to a session leave of its times and its status. */
  ghost predicate Timed(origin: SessionView, pkts: seq<PacketEvent>, s: SessionView) {
    && s.firstSeen == origin.firstSeen && s.firstSeenEpoch == origin.firstSeenEpoch
    && (if pkts == [] then s == origin
        else
          var last := pkts[|pkts| - 1].epoch;
          s.lastSeen == OfEpoch(last) && s.lastSeenEpoch == last)
    && s.status == (if Closes(pkts) then Closed else origin.status)
    && (!Closes(pkts) ==> s.closedAt == origin.closedAt)
    && forall i: nat | LastCloseAt(pkts, i) :: s.closedAt == OfEpoch(pkts[i].epoch)
  }

  lemma {:induction false} PacketsTimed(s: SessionView, pkts: seq<PacketEvent>)
    ensures Timed(s, pkts, ApplyAll(s, pkts))
  {
    if pkts != [] {
      var init, p := pkts[..|pkts| - 1], pkts[|pkts| - 1];
      assert pkts == init + [p];
      PacketsTimed(s, init);
      PacketTimed(s, init, ApplyAll(s, init), p);
    }
  }

  lemma PacketTimed(s: SessionView, init: seq<PacketEvent>, t: SessionView, p: PacketEvent)
    requires Timed(s, init, t)
    ensures Timed(s, init + [p], Touch(t, p))
  {
    hide LogsAfter;
    var pkts := init + [p];
    assert p in pkts && forall q <- init :: q in pkts;
    assert forall q <- pkts :: q in init || q == p;
    forall i: nat | LastCloseAt(pkts, i) ensures Touch(t, p).closedAt == OfEpoch(pkts[i].epoch) {
      if i < |init| {
        assert pkts[|init|] == p;
        assert LastCloseAt(init, i) by {
          assert forall j | i < j < |init| :: pkts[j] == init[j];
        }
      }
    }
  }

  /** When some packet closes, there is a last one that does. */
  lemma {:induction false} SomeLastClose(pkts: seq<PacketEvent>) returns (i: nat)
    requires Closes(pkts)
    ensures LastCloseAt(pkts, i)
  {
    var n := |pkts| - 1;
    if pkts[n].isClose {
      i := n;
    } else {
      i := SomeLastClose(pkts[..n]);
    }
  }

  // ---- where a session comes from --------------------------------------------

  /** The payload hint of the flow names a domain whose vendor is known. */
  predicate Names(op: Op, g: FlowKey)
    requires op.MergeOp?
  {
    g in op.hints && op.matcher(op.hints[g]) != ""
  }

  /**
   The name of a session opened by a packet: that of the payload hint recorded
   for the packet's own direction, else for the other one, else that of the
   hint for the server's address.
   */
  predicate NamedBy(env: Env, op: Op, evt: PacketEvent, id: SessionId)
    requires op.MergeOp?
  {
    var there := FlowKey(evt.srcIP, evt.srcPort, evt.dstIP, evt.dstPort);
    var back := FlowKey(evt.dstIP, evt.dstPort, evt.srcIP, evt.srcPort);
    && id.domain != "" && id.vendor != ""
    && (Names(op, there) ==> id.domain == op.hints[there])
    && (!Names(op, there) && Names(op, back) ==> id.domain == op.hints[back])
    && (Names(op, there) || Names(op, back) ==> id.vendor == op.matcher(id.domain))
    && (!Names(op, there) && !Names(op, back) ==>
          id.flow.dstIP in env.ipHints && env.ipHints[id.flow.dstIP] == IPHint(id.domain, id.vendor))
  }

  /** Some hint names the connection: a payload hint with a known vendor, or else one for the server's address. */
  predicate HasName(env: Env, op: Op, evt: PacketEvent)
    requires op.MergeOp?
  {
    var there := FlowKey(evt.srcIP, evt.srcPort, evt.dstIP, evt.dstPort);
    var back := FlowKey(evt.dstIP, evt.dstPort, evt.srcIP, evt.srcPort);
    var server := if evt.srcPort == 443 then evt.srcIP else evt.dstIP;
    if Names(op, there) then op.hints[there] != ""
    else if Names(op, back) then op.hints[back] != ""
    else server in env.ipHints && env.ipHints[server].domain != "" && env.ipHints[server].vendor != ""
  }

  /**
   Which packets open a session: exactly the TCP packets to or from port 443 that
   find none and have a name.  Nothing else about the hints or the state matters.
   */
  lemma OpensExactly(env: Env, op: Op, st: State, evt: PacketEvent)
    requires op.MergeOp?
    ensures Registers(env.With(op.matcher), op.hints, st, evt) <==>
      && evt.protocol == Tcp && Find(st, evt.Flow()) == ""
      && (evt.srcPort == 443 || evt.dstPort == 443) && HasName(env, op, evt)
  {
  }

  /** The session as the first TCP packet of a merge opens it: seen at that packet, with nothing counted yet. */
  predicate OpenedBy(env: Env, op: Op, evt: PacketEvent, s: SessionView) {
    && op.MergeOp? && evt in op.evts && evt.protocol == Tcp
    && s.id.flow == (if evt.srcPort == 443 then FlowKey(evt.dstIP, evt.dstPort, evt.srcIP, evt.srcPort)
                     else FlowKey(evt.srcIP, evt.srcPort, evt.dstIP, evt.dstPort))
    && s.id.flow.dstPort == 443
    && s.id.iface == env.iface && NamedBy(env, op, evt, s.id)
    && s.id.sessionKey == SessionKeyText(env.iface, s.id.flow, s.id.domain, Trunc(evt.epoch))
    && s.firstSeen == s.lastSeen == OfEpoch(evt.epoch) && s.firstSeenEpoch == s.lastSeenEpoch == evt.epoch
    && s.closedAt == Unset && s.status == Open
    && s.uplinkBytes == s.downlinkBytes == s.totalBytes == s.requestCount == s.packetCount == 0
    && s.logs == []
  }

  /** A trail starts at a restored row, or at the session its first packet opened in some merge. */
  ghost predicate Started(env: Env, rows: seq<SessionView>, ops: seq<Op>, t: Trail) {
    || t.origin in rows
    || (t.applied != [] && exists op <- ops :: OpenedBy(env, op, t.applied[0], t.origin))
  }

  ghost predicate AllStarted(env: Env, rows: seq<SessionView>, ops: seq<Op>, tr: Trails) {
    forall k <- tr :: Started(env, rows, ops, tr[k])
  }

  lemma RegisteredIsOpened(env: Env, op: Op, st: State, evt: PacketEvent)
    requires op.MergeOp? && evt in op.evts && Registers(env.With(op.matcher), op.hints, st, evt)
    ensures var e := env.With(op.matcher); OpenedBy(env, op, evt, NewSession(e, evt, LookupHint(e, op.hints, evt)))
  {
  }

  lemma StepStarted(env: Env, rows: seq<SessionView>, ops: seq<Op>, op: Op, st: State, tr: Trails, evt: PacketEvent)
    requires op in ops && op.MergeOp? && evt in op.evts && PlainEnv(env) && PlainPacket(evt)
    requires AllStarted(env, rows, ops, tr)
    ensures AllStarted(env, rows, ops, TrailStep(env.With(op.matcher), op.hints, st, tr, evt))
  {
    hide OpenedBy, LookupHint, SessionKeyText;
    var e := env.With(op.matcher);
    if Registers(e, op.hints, st, evt) {
      RegisteredIsOpened(env, op, st, evt);
      NewlyRegistered(e, op.hints, st, evt);
    }
  }

  lemma {:induction false} MergeStarted(env: Env, rows: seq<SessionView>, ops: seq<Op>, op: Op, st: State, tr: Trails,
                                        evts: seq<PacketEvent>)
    requires op in ops && op.MergeOp? && evts <= op.evts && PlainEnv(env) && forall e <- evts :: PlainPacket(e)
    requires AllStarted(env, rows, ops, tr)
    ensures AllStarted(env, rows, ops, TrailMerge(env.With(op.matcher), op.hints, st, tr, evts))
  {
    hide AllStarted, TrailStep;
    if evts != [] {
      var init, e := evts[..|evts| - 1], env.With(op.matcher);
      assert forall x <- init :: x in evts;
      assert evts[|evts| - 1] in evts && op.evts[|evts| - 1] in op.evts;
      MergeStarted(env, rows, ops, op, st, tr, init);
      StepStarted(env, rows, ops, op, Merge(e, op.hints, st, init), TrailMerge(e, op.hints, st, tr, init),
                  evts[|evts| - 1]);
    }
  }

  lemma StillStarted(env: Env, rows: seq<SessionView>, ops: seq<Op>, more: seq<Op>, tr: Trails)
    requires AllStarted(env, rows, ops, tr) && forall op <- ops :: op in more
    ensures AllStarted(env, rows, more, tr)
  {
    hide OpenedBy;
    forall k <- tr ensures Started(env, rows, more, tr[k]) {
      assert Started(env, rows, ops, tr[k]);
    }
  }

  lemma {:induction false} RunStarted(env: Env, rows: seq<SessionView>, ops: seq<Op>)
    requires PlainEnv(env) && Restorable(rows) && forall op <- ops :: PlainOp(op)
    ensures AllStarted(env, rows, ops, TrailRun(env, rows, ops))
  {
    hide AllStarted, TrailMerge, NewTrails;
    if ops == [] {
      RestoredTrails(env, rows);
    } else {
      var init, op := ops[..|ops| - 1], ops[|ops| - 1];
      assert op in ops && forall o <- init :: o in ops;
      RunStarted(env, rows, init);
      var tr := TrailRun(env, rows, init);
      StillStarted(env, rows, init, ops, tr);
      if op.MergeOp? {
        MergeStarted(env, rows, ops, op, Run(env, Restore(EMPTY, rows), init), tr, op.evts);
      }
    }
  }

  lemma {:induction false} RestoredTrails(env: Env, rows: seq<SessionView>)
    requires Restorable(rows)
    ensures AllStarted(env, rows, [], TrailRun(env, rows, []))
  {
    RestoredSessions(rows);
    forall k <- TrailRun(env, rows, []) ensures TrailRun(env, rows, [])[k].origin in rows {
      assert HasKey(rows, k);
    }
  }

  /**
   In every run, every live session is a restored row or was opened by the first
   packet applied to it, under that packet's name; the packets applied since
   leave its times and its status as follows.
   */
  lemma {:induction false} EverySessionTimed(env: Env, rows: seq<SessionView>, ops: seq<Op>, key: string)
    requires PlainEnv(env) && Restorable(rows) && forall op <- ops :: PlainOp(op)
    requires forall i | 0 <= i < |rows| :: rows[i].logs == []
    requires key in Run(env, Restore(EMPTY, rows), ops).sessions
    ensures key in TrailRun(env, rows, ops)
    ensures var s, t := Run(env, Restore(EMPTY, rows), ops).sessions[key], TrailRun(env, rows, ops)[key];
      && s.id == t.origin.id
      && (t.origin in rows || (t.applied != [] && exists op <- ops :: OpenedBy(env, op, t.applied[0], t.origin)))
      && (t.applied == [] ==> s == t.origin)
      && s.firstSeen == t.origin.firstSeen && s.firstSeenEpoch == t.origin.firstSeenEpoch
      && (t.applied != [] ==>
            var last := t.applied[|t.applied| - 1].epoch; s.lastSeen == OfEpoch(last) && s.lastSeenEpoch == last)
      && (s.status == Closed <==> t.origin.status == Closed || exists p <- t.applied :: p.isClose)
      && ((forall p <- t.applied :: !p.isClose) ==> s.closedAt == t.origin.closedAt)
      && ((exists p <- t.applied :: p.isClose) ==>
            exists i: nat :: LastCloseAt(t.applied, i) && s.closedAt == OfEpoch(t.applied[i].epoch))
  {
    hide TrailRun, Run, OpenedBy;
    RunTracked(env, rows, ops);
    RunStarted(env, rows, ops);
    var t := TrailRun(env, rows, ops)[key];
    assert Started(env, rows, ops, t);
    PacketsTimed(t.origin, t.applied);
    if Closes(t.applied) {
      var i := SomeLastClose(t.applied);
    }
  }

  // ---- what a sweep drops ----------------------------------------------------

  /** The epoch a session was last heard of: its last packet's, or what it was restored with. */
  function LastHeard(t: Trail): real {
    if t.applied == [] then t.origin.lastSeenEpoch else t.applied[|t.applied| - 1].epoch
  }

  /** The epoch from which the idle time runs; an epoch of zero counts as none. */
  function QuietSince(t: Trail): real {
    if LastHeard(t) != 0.0 then LastHeard(t) else t.origin.firstSeenEpoch
  }

  lemma ExpiredRow(env: Env, st: State, epoch: real, key: string)
    requires key in Expired(env, st, epoch)
    ensures key in st.sessions && Expired(env, st, epoch)[key] == Expire(st.sessions[key])
  {
  }

  lemma QuietIsIdle(env: Env, s: SessionView, t: Trail, epoch: real)
    requires Timed(t.origin, t.applied, s)
    ensures Idle(env, s, epoch) <==> epoch - QuietSince(t) >= env.idleSeconds as real
    ensures Expire(s) == s.(status := Closed, closedAt := Expire(s).closedAt)
    ensures forall i: nat | LastCloseAt(t.applied, i) :: Expire(s).closedAt == OfEpoch(t.applied[i].epoch)
    ensures (forall p <- t.applied :: !p.isClose) ==>
      Expire(s).closedAt == if t.origin.closedAt != Unset then t.origin.closedAt else OfEpoch(QuietSince(t))
  {
  }

  /**
   In every run a sweep drops a live session exactly when it has been quiet for
   the idle time, and hands over its closed row, which differs in nothing but
   status and close time.  The close time is that of the last packet that
   closed it, else the one it was restored with, else the end of its traffic.
   */
  lemma {:induction false} SweptWhenQuiet(env: Env, rows: seq<SessionView>, ops: seq<Op>, key: string, epoch: real)
    requires PlainEnv(env) && Restorable(rows) && forall op <- ops :: PlainOp(op)
    requires forall i | 0 <= i < |rows| :: rows[i].logs == []
    requires key in Run(env, Restore(EMPTY, rows), ops).sessions
    ensures key in TrailRun(env, rows, ops)
    ensures var st, t := Run(env, Restore(EMPTY, rows), ops), TrailRun(env, rows, ops)[key];
      var swept, closed := Run(env, Restore(EMPTY, rows), ops + [SweepOp(epoch)]), Expired(env, st, epoch);
      && (key !in swept.sessions <==> epoch - QuietSince(t) >= env.idleSeconds as real)
      && (key in swept.sessions ==> swept.sessions[key] == st.sessions[key])
      && (key in closed <==> key !in swept.sessions)
      && (key in closed ==>
            && closed[key] == st.sessions[key].(status := Closed, closedAt := closed[key].closedAt)
            && ((exists p <- t.applied :: p.isClose) ==>
                  exists i: nat :: LastCloseAt(t.applied, i) && closed[key].closedAt == OfEpoch(t.applied[i].epoch))
            && ((forall p <- t.applied :: !p.isClose) ==>
                  closed[key].closedAt == if t.origin.closedAt != Unset then t.origin.closedAt
                                          else OfEpoch(QuietSince(t))))
  {
    hide TrailRun;
    var after := ops + [SweepOp(epoch)];
    assert after[..|ops|] == ops;
    var st := Run(env, Restore(EMPTY, rows), ops);
    assert Run(env, Restore(EMPTY, rows), after) == Sweep(env, st, epoch);
    ReachableInv(env, rows, ops);
    RunTracked(env, rows, ops);
    hide Run, Idle, Timed, Sweep, Expired, Inv, QuietSince, Expire, ApplyAll, LastCloseAt;
    PacketsTimed(TrailRun(env, rows, ops)[key].origin, TrailRun(env, rows, ops)[key].applied);
    QuietIsIdle(env, st.sessions[key], TrailRun(env, rows, ops)[key], epoch);
    SweepExact(env, st, epoch);
    if key in Expired(env, st, epoch) {
      ExpiredRow(env, st, epoch, key);
      if Closes(TrailRun(env, rows, ops)[key].applied) {
        var i := SomeLastClose(TrailRun(env, rows, ops)[key].applied);
      }
    }
  }
}
