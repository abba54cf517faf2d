/**
 The parser engine over mutable objects: sessions updated in place, the two
 indexes, and request logs reachable both from the session (as its pending
 request) and from the per-job map.  Every object carries its abstract value in
 a ghost field, `Valid()` ties that value to the real fields, and every method is
 proved to move it exactly as the functions of Tracker do.
 */
module Engine {
  import opened Model
  import opened Keys
  import opened Tracker
  import opened Indexes
  import opened RequestKeys

  class RequestLog {
    const requestKey: string
    const sessionKey: string
    const seenAt: TimeText
    const uplinkBytes: int
    var downlinkBytes: int
    var totalBytes: int
    // The one session whose pending request this log may be, and its place among that session's logs.
    ghost const owner: Session
    ghost const index: nat

    constructor (owner: Session, requestKey: string, seenAt: TimeText, uplinkBytes: int, ghost index: nat)
      ensures this.owner == owner && this.index == index && this.requestKey == requestKey
      ensures sessionKey == owner.id.sessionKey
      ensures View() == RequestView(requestKey, owner.id.sessionKey, seenAt, uplinkBytes, 0, 0)
    {
      this.owner, this.index := owner, index;
      this.requestKey, this.sessionKey, this.seenAt := requestKey, owner.id.sessionKey, seenAt;
      this.uplinkBytes, downlinkBytes, totalBytes := uplinkBytes, 0, 0;
    }

    ghost function View(): RequestView
      reads this
    {
      RequestView(requestKey, sessionKey, seenAt, uplinkBytes, downlinkBytes, totalBytes)
    }
  }

  class Session {
    const id: SessionId
    const firstSeen: TimeText
    const firstSeenEpoch: real
    var lastSeen: TimeText
    var closedAt: TimeText
    var status: Status
    var uplinkBytes: int
    var downlinkBytes: int
    var totalBytes: int
    var requestCount: int
    var packetCount: int
    var lastSeenEpoch: real
    var pendingRequest: RequestLog?
    ghost var view: SessionView
    ghost var logs: seq<RequestLog>

    /** The pending request is the last log, no log belongs to two sessions, and the view is what the fields say. */
    ghost predicate Valid()
      reads this, logs
    {
      LogsValid() && FieldsValid()
    }

    ghost predicate LogsValid()
      reads `view, `logs, `pendingRequest, logs
    {
      && |view.logs| == |logs|
      && (forall i | 0 <= i < |logs| :: logs[i].owner == this && logs[i].index == i && logs[i].View() == view.logs[i])
      && pendingRequest == if logs == [] then null else logs[|logs| - 1]
    }

    ghost predicate FieldsValid()
      reads this
    {
      view == SessionView(id, firstSeen, lastSeen, closedAt, status, uplinkBytes, downlinkBytes, totalBytes,
                          requestCount, packetCount, firstSeenEpoch, lastSeenEpoch, view.logs)
    }

    /** A session opened by its first packet. */
    constructor (id: SessionId, epoch: real)
      ensures Valid() && logs == [] && this.id == id
      ensures view == SessionView(id, OfEpoch(epoch), OfEpoch(epoch), Unset, Open, 0, 0, 0, 0, 0, epoch, epoch, [])
    {
      this.id, firstSeen, firstSeenEpoch := id, OfEpoch(epoch), epoch;
      lastSeen, closedAt, status := OfEpoch(epoch), Unset, Open;
      uplinkBytes, downlinkBytes, totalBytes, requestCount, packetCount := 0, 0, 0, 0, 0;
      lastSeenEpoch, pendingRequest, logs := epoch, null, [];
      view := SessionView(id, OfEpoch(epoch), OfEpoch(epoch), Unset, Open, 0, 0, 0, 0, 0, epoch, epoch, []);
    }

    /** A session loaded from an open row; its epochs and its pending request are not stored. */
    constructor FromRow(id: SessionId, firstSeen: TimeText, lastSeen: TimeText, closedAt: TimeText,
                        uplinkBytes: int, downlinkBytes: int, totalBytes: int, requestCount: int, packetCount: int)
      ensures Valid() && logs == [] && this.id == id
      ensures view == SessionView(id, firstSeen, lastSeen, closedAt, Open, uplinkBytes, downlinkBytes, totalBytes,
                                  requestCount, packetCount, 0.0, 0.0, [])
    {
      this.id, this.firstSeen, firstSeenEpoch := id, firstSeen, 0.0;
      this.lastSeen, this.closedAt, status := lastSeen, closedAt, Open;
      this.uplinkBytes, this.downlinkBytes, this.totalBytes := uplinkBytes, downlinkBytes, totalBytes;
      this.requestCount, this.packetCount := requestCount, packetCount;
      lastSeenEpoch, pendingRequest, logs := 0.0, null, [];
      view := SessionView(id, firstSeen, lastSeen, closedAt, Open, uplinkBytes, downlinkBytes, totalBytes,
                          requestCount, packetCount, 0.0, 0.0, []);
    }

    method ApplyPacket(evt: PacketEvent) returns (made: RequestLog?)
      requires Valid()
      modifies this, pendingRequest
      ensures Valid() && view == Tracker.ApplyPacket(old(view), evt)
      ensures made == null <==> !OpensRequest(evt)
      ensures made != null ==>
        && fresh(made) && made.sessionKey == id.sessionKey
        && made.requestKey == RequestKeyText(id.sessionKey, old(requestCount) + 1)
      ensures logs == old(logs) + if made == null then [] else [made]
    {
      hide RequestKeyText, NewRequest, AddDownlink, LogsAfter, LogsValid, RequestLog.View;
      packetCount := packetCount + 1;
      lastSeen := OfEpoch(evt.epoch);
      lastSeenEpoch := evt.epoch;
      if evt.dstPort == 443 {
        made := CountUplink(evt);
      } else {
        made := null;
        CountDownlink(evt);
      }
      SetView(Tracker.ApplyPacket(old(view), evt));
    }

    ghost method SetView(v: SessionView)
      requires LogsValid() && v.logs == view.logs
      requires v == SessionView(id, firstSeen, lastSeen, closedAt, status, uplinkBytes, downlinkBytes, totalBytes,
                                requestCount, packetCount, firstSeenEpoch, lastSeenEpoch, v.logs)
      modifies this`view
      ensures Valid() && view == v
    {
      view := v;
    }

    method CountUplink(evt: PacketEvent) returns (made: RequestLog?)
      requires LogsValid() && view.id == id && evt.dstPort == 443
      modifies this`uplinkBytes, this`totalBytes, this`requestCount, this`pendingRequest, this`logs, this`view
      ensures uplinkBytes == old(uplinkBytes) + evt.length && totalBytes == old(totalBytes) + evt.length
      ensures requestCount == old(requestCount) + if evt.length > 0 then 1 else 0
      ensures LogsValid() && view.logs == LogsAfter(id.sessionKey, old(requestCount), old(view.logs), evt)
      ensures made == null <==> evt.length == 0
      ensures made != null ==>
        && fresh(made) && made.sessionKey == id.sessionKey
        && made.requestKey == RequestKeyText(id.sessionKey, requestCount)
      ensures logs == old(logs) + if made == null then [] else [made]
    {
      hide RequestKeyText;
      made := null;
      uplinkBytes := uplinkBytes + evt.length;
      totalBytes := totalBytes + evt.length;
      if evt.length > 0 {
        requestCount := requestCount + 1;
        made := OpenRequest(evt);
      }
    }

    method CountDownlink(evt: PacketEvent)
      requires LogsValid() && evt.dstPort != 443
      modifies this`downlinkBytes, this`totalBytes, this`view, pendingRequest
      ensures downlinkBytes == old(downlinkBytes) + evt.length && totalBytes == old(totalBytes) + evt.length
      ensures LogsValid() && view.logs == LogsAfter(id.sessionKey, requestCount, old(view.logs), evt)
    {
      hide RequestKeyText;
      downlinkBytes := downlinkBytes + evt.length;
      totalBytes := totalBytes + evt.length;
      if pendingRequest != null && evt.length > 0 {
        CreditPending(evt.length);
      }
    }

    method OpenRequest(evt: PacketEvent) returns (rl: RequestLog)
      requires LogsValid() && view.id == id
      modifies this`pendingRequest, this`logs, this`view
      ensures LogsValid() && fresh(rl) && logs == old(logs) + [rl] && rl.sessionKey == id.sessionKey
      ensures rl.requestKey == RequestKeyText(id.sessionKey, requestCount)
      ensures view == old(view).(logs := old(view.logs) + [NewRequest(id.sessionKey, requestCount, evt)])
    {
      rl := new RequestLog(this, RequestKeyText(id.sessionKey, requestCount), OfEpoch(evt.epoch), evt.length, |logs|);
      pendingRequest := rl;
      logs := logs + [rl];
      view := view.(logs := view.logs + [rl.View()]);
    }

    method CreditPending(n: nat)
      requires LogsValid() && pendingRequest != null
      modifies pendingRequest, this`view
      ensures LogsValid() && view.logs == old(view.logs)[|logs| - 1 := AddDownlink(old(view.logs[|logs| - 1]), n)]
      ensures view == old(view).(logs := view.logs)
    {
      pendingRequest.downlinkBytes := pendingRequest.downlinkBytes + n;
      pendingRequest.totalBytes := pendingRequest.uplinkBytes + pendingRequest.downlinkBytes;
      view := view.(logs := view.logs[|logs| - 1 := pendingRequest.View()]);
    }

    method Close(epoch: real)
      requires Valid()
      modifies this`status, this`closedAt, this`view
      ensures Valid() && view == old(view).(status := Closed, closedAt := OfEpoch(epoch))
    {
      status := Closed;
      closedAt := OfEpoch(epoch);
      view := view.(status := Closed, closedAt := OfEpoch(epoch));
    }

    /** Applies a packet and, on FIN or RST, closes the session. */
    method Receive(evt: PacketEvent) returns (made: RequestLog?)
      requires Valid()
      modifies this, pendingRequest
      ensures Valid() && view == Touch(old(view), evt)
      ensures status == (if evt.isClose then Closed else old(status))
      ensures closedAt == (if evt.isClose then OfEpoch(evt.epoch) else old(closedAt))
      ensures lastSeen == OfEpoch(evt.epoch) && lastSeenEpoch == evt.epoch && packetCount == old(packetCount) + 1
      ensures made == null <==> !OpensRequest(evt)
      ensures made != null ==>
        && fresh(made) && made.sessionKey == id.sessionKey
        && made.requestKey == RequestKeyText(id.sessionKey, old(view).requestCount + 1)
      ensures logs == old(logs) + if made == null then [] else [made]
    {
      hide RequestKeyText, LogsAfter;
      made := ApplyPacket(evt);
      if evt.isClose {
        Close(evt.epoch);
      }
    }

    predicate IsIdle(env: Env, epoch: real)
      reads this
    {
      var last := if lastSeenEpoch == 0.0 then firstSeenEpoch else lastSeenEpoch;
      epoch - last >= env.idleSeconds as real
    }

    lemma IdAgrees()
      requires Valid()
      ensures view.id == id
    {
    }

    lemma IdleAgrees(env: Env, epoch: real)
      requires Valid()
      ensures IsIdle(env, epoch) == Idle(env, view, epoch)
    {
    }

    method Expire()
      requires Valid()
      modifies this`status, this`closedAt, this`view
      ensures Valid() && view == Tracker.Expire(old(view))
      ensures status == Closed && (old(closedAt) != Unset ==> closedAt == old(closedAt))
      ensures old(closedAt) == Unset ==>
        closedAt == OfEpoch(if lastSeenEpoch != 0.0 then lastSeenEpoch else firstSeenEpoch)
    {
      status := Closed;
      if closedAt == Unset {
        closedAt := OfEpoch(if lastSeenEpoch == 0.0 then firstSeenEpoch else lastSeenEpoch);
      }
      view := Tracker.Expire(view);
    }
  }

  /** Every session is stored under its own key, is valid, looks as the views say, and lies in the footprint. */
  ghost predicate AllValid(sessions: map<string, Session>, views: map<string, SessionView>, repr: set<object>)
    reads repr
  {
    && views.Keys == sessions.Keys
    && forall k <- sessions :: SessionValid(k, sessions[k], views, repr)
  }

  ghost predicate SessionValid(k: string, s: Session, views: map<string, SessionView>, repr: set<object>)
    reads repr
  {
    && s in repr && (forall l <- s.logs :: l in repr)
    && s.id.sessionKey == k && s.Valid()
    && k in views && views[k] == s.view
  }

  lemma AllValidStore(sessions: map<string, Session>, views: map<string, SessionView>, repr: set<object>, s: Session,
                      repr': set<object>)
    requires AllValid(sessions, views, repr) && s.Valid()
    requires repr <= repr' && s in repr' && forall l <- s.logs :: l in repr'
    ensures AllValid(sessions[s.id.sessionKey := s], views[s.id.sessionKey := s.view], repr')
  {
    var sessions', views' := sessions[s.id.sessionKey := s], views[s.id.sessionKey := s.view];
    forall k <- sessions' ensures SessionValid(k, sessions'[k], views', repr') {
      if k != s.id.sessionKey {
        assert SessionValid(k, sessions[k], views, repr);
      }
    }
  }

  lemma AllValidDrop(sessions: map<string, Session>, views: map<string, SessionView>, repr: set<object>, key: string)
    requires AllValid(sessions, views, repr)
    ensures AllValid(sessions - {key}, views - {key}, repr)
  {
    forall k <- sessions - {key} ensures SessionValid(k, sessions[k], views - {key}, repr) {
      assert SessionValid(k, sessions[k], views, repr);
    }
  }

  twostate lemma PendingOwned(s: Session)
    requires old(s.Valid())
    ensures old(s.pendingRequest) != null ==> old(s.pendingRequest).owner == s && old(s.pendingRequest) in old(s.logs)
  {
  }

  class ParserEngine {
    var env: Env
    var sessions: map<string, Session>
    var flowMap: map<FlowKey, string>
    var revMap: map<FlowKey, string>
    ghost var state: State
    ghost var repr: set<object>

    constructor (env: Env)
      ensures Valid() && state == EMPTY && sessions == map[] && this.env == env && fresh(repr)
    {
      this.env := env;
      sessions, flowMap, revMap, state, repr := map[], map[], map[], EMPTY, {};
    }

    /** Replaces the domain matcher; a merge holds the lock throughout, so it sees one matcher. */
    method SetMatcher(matcher: Matcher)
      requires Valid()
      modifies `env
      ensures Valid() && env == old(env).With(matcher)
    {
      env := env.With(matcher);
    }

    ghost predicate Valid()
      reads `sessions, `flowMap, `revMap, `state, `repr, repr
    {
      && state.flowMap == flowMap && state.revMap == revMap
      && this !in repr
      && AllValid(sessions, state.sessions, repr)
    }

    function FindKey(f: FlowKey): string
      reads this
    {
      if Get(flowMap, f) != "" then Get(flowMap, f) else Get(revMap, f)
    }

    /** Stores a session under its key and binds its flow in both indexes. */
    method Store(session: Session)
      requires Valid() && session.Valid()
      modifies this
      ensures env == old(env)
      ensures Valid() && sessions == old(sessions)[session.id.sessionKey := session]
      ensures state == Bind(old(state), session.view)
      ensures repr == old(repr) + {session} + set l | l in session.logs
    {
      hide Session.Valid, AllValid, SessionValid;
      ghost var repr' := repr + {session} + set l | l in session.logs;
      AllValidStore(sessions, state.sessions, repr, session, repr');
      sessions := sessions[session.id.sessionKey := session];
      flowMap := flowMap[session.id.flow := session.id.sessionKey];
      revMap := revMap[session.id.flow.Reverse() := session.id.sessionKey];
      repr := repr';
      state := Bind(state, session.view);
      session.IdAgrees();
    }

    method RegisterSession(evt: PacketEvent, hint: Hint) returns (key: string)
      requires Valid()
      modifies this
      ensures env == old(env)
      ensures Valid() && fresh(repr - old(repr)) && old(repr) <= repr && key == NewKey(env, evt, hint)
      ensures state == Register(env, old(state), evt, hint)
      ensures key in sessions && fresh(sessions[key]) && sessions == old(sessions)[key := sessions[key]]
    {
      hide SessionKeyText;
      key := NewKey(env, evt, hint);
      var session := new Session(SessionId(key, env.iface, evt.ClientFlow(), hint.vendor, hint.domain), evt.epoch);
      Store(session);
    }

    /** Applies a packet to a live session, in place; no other session or log changes. */
    method TouchSession(key: string, evt: PacketEvent) returns (made: RequestLog?)
      requires Valid() && key in sessions
      modifies this`state, this`repr, repr
      ensures Valid() && fresh(repr - old(repr)) && old(repr) <= repr
      ensures state == old(state).(sessions := old(state).sessions[key := Touch(old(state).sessions[key], evt)])
      ensures made == null <==> !OpensRequest(evt)
      ensures made != null ==>
        fresh(made) && made.requestKey == RequestKeyText(key, old(state).sessions[key].requestCount + 1)
      ensures made != null ==> made.sessionKey == key && made in sessions[key].logs
      ensures forall k <- sessions :: old(sessions[k].logs) <= sessions[k].logs
    {
      hide RequestKeyText, Touch, AllValid;
      InState(key);
      ghost var repr': set<object>;
      made, repr' := Deliver(key, evt);
      SetState(state.(sessions := state.sessions[key := Touch(state.sessions[key], evt)]), repr');
    }

    lemma InState(key: string)
      requires Valid() && key in sessions
      ensures key in state.sessions && sessions[key].Valid() && sessions[key].id.sessionKey == key
      ensures sessions[key] in repr && state.sessions[key] == sessions[key].view
      ensures state.sessions[key].id == sessions[key].id
      ensures sessions[key].pendingRequest != null ==> sessions[key].pendingRequest in repr
    {
      assert SessionValid(key, sessions[key], state.sessions, repr);
    }

    /**
     When one session and its pending request change, another session is as it
     was: it shares no log with that one.
     */
    twostate lemma OtherKept(new key: string, new k: string, new repr': set<object>)
      requires old(Valid()) && unchanged(this) && key in sessions && k in sessions && k != key && repr <= repr'
      requires forall o <- repr | o != sessions[key] && o != old(sessions[key].pendingRequest) :: unchanged(o)
      ensures k in state.sessions && SessionValid(k, sessions[k], state.sessions, repr')
      ensures sessions[k].logs == old(sessions[k].logs)
    {
      hide Session.FieldsValid, RequestLog.View;
      var session, s := sessions[key], sessions[k];
      assert old(SessionValid(key, session, state.sessions, repr)) && old(SessionValid(k, s, state.sessions, repr));
      PendingOwned(session);
      forall i | 0 <= i < |s.logs| ensures unchanged(s.logs[i]) {
        assert s.logs[i].owner == s && s.logs[i] in repr;
      }
      assert s.LogsValid();
    }

    /** Changing one session and its pending request leaves every other session as it was. */
    twostate lemma OthersKept(key: string, new repr': set<object>)
      requires old(Valid()) && unchanged(this) && key in sessions
      requires repr <= repr' && (forall l <- sessions[key].logs :: l in repr' || l in old(sessions[key].logs))
      requires sessions[key].Valid()
      requires forall o <- repr | o != sessions[key] && o != old(sessions[key].pendingRequest) :: unchanged(o)
      ensures AllValid(sessions, state.sessions[key := sessions[key].view], repr')
      ensures forall k <- sessions | k != key :: sessions[k].logs == old(sessions[k].logs)
    {
      hide Session.Valid;
      assert old(SessionValid(key, sessions[key], state.sessions, repr));
      forall k <- sessions | k != key
        ensures SessionValid(k, sessions[k], state.sessions[key := sessions[key].view], repr')
        ensures sessions[k].logs == old(sessions[k].logs)
      {
        OtherKept(key, k, repr');
      }
    }

    method Deliver(key: string, evt: PacketEvent) returns (made: RequestLog?, ghost repr': set<object>)
      requires Valid() && key in sessions && key in state.sessions
      modifies repr
      ensures AllValid(sessions, state.sessions[key := Touch(state.sessions[key], evt)], repr')
      ensures repr' == if made == null then repr else repr + {made}
      ensures made == null <==> !OpensRequest(evt)
      ensures made != null ==>
        fresh(made) && made.requestKey == RequestKeyText(key, state.sessions[key].requestCount + 1)
      ensures made != null ==> made.sessionKey == key && made in sessions[key].logs
      ensures forall k <- sessions :: old(sessions[k].logs) <= sessions[k].logs
    {
      hide RequestKeyText, Touch, AllValid, Session.Valid, SessionValid;
      var session := sessions[key];
      InState(key);
      made := session.Receive(evt);
      repr' := if made == null then repr else repr + {made};
      OthersKept(key, repr');
    }

    ghost method SetState(state': State, repr': set<object>)
      requires state'.flowMap == flowMap && state'.revMap == revMap && this !in repr'
      requires AllValid(sessions, state'.sessions, repr')
      modifies this`state, this`repr
      ensures Valid() && state == state' && repr == repr'
    {
      state, repr := state', repr';
    }

    /** A log of the per-job map is also a log of the live, bound session it names: one object, reachable twice. */
    ghost predicate Owned(l: RequestLog)
      reads this, repr
    {
      && l.sessionKey in sessions && sessions[l.sessionKey] in repr
      && l in sessions[l.sessionKey].logs
      && Bound(state, l.sessionKey)
    }

    /** Registers the session of a connection that has none; the owned logs stay owned. */
    method RegisterNew(evt: PacketEvent, hint: Hint, ghost ls: set<RequestLog>) returns (key: string)
      requires Valid() && Inv(state) && PlainEnv(env) && PlainPacket(evt) && Find(state, evt.Flow()) == ""
      requires forall l <- ls :: Owned(l)
      modifies this
      ensures env == old(env)
      ensures Valid() && fresh(repr - old(repr)) && old(repr) <= repr && key == NewKey(env, evt, hint)
      ensures state == Register(env, old(state), evt, hint)
      ensures forall l <- ls :: Owned(l)
    {
      RegisterOverwritesNothing(state, evt);
      NewKeyUnbound(env, state, evt, hint);
      key := RegisterSession(evt, hint);
      OwnedAfterBind(evt.ClientFlow(), key, ls);
    }

    /** Binding a new flow to a key no bound session has displaces no owned log. */
    twostate lemma OwnedAfterBind(new f: FlowKey, key: string, new ls: set<RequestLog>)
      requires old(Valid()) && Valid() && old(repr) <= repr && forall o <- old(repr) :: unchanged(o)
      requires f !in old(state).flowMap && forall g <- old(state).flowMap :: old(state).flowMap[g] != key
      requires key in sessions && sessions == old(sessions)[key := sessions[key]]
      requires key in state.sessions && state.sessions == old(state).sessions[key := state.sessions[key]]
      requires state.flowMap == old(state).flowMap[f := key]
      requires forall l <- ls :: old(allocated(l)) && old(Owned(l))
      ensures forall l <- ls :: Owned(l)
    {
      forall l <- ls ensures Owned(l) {
        var k := l.sessionKey;
        assert old(Owned(l));
        assert k != key;
        assert sessions[k] in old(repr) && sessions[k] in repr;
      }
    }

    /** One packet of a merge: look up or register its session, and apply it there. */
    method StepPacket(hints: map<FlowKey, string>, evt: PacketEvent, ghost ls: set<RequestLog>)
      returns (key: string, made: RequestLog?)
      requires Valid() && Inv(state) && PlainEnv(env) && PlainPacket(evt)
      requires forall l <- ls :: Owned(l)
      modifies this, repr
      ensures env == old(env)
      ensures Valid() && fresh(repr - old(repr)) && old(repr) <= repr
      ensures state == Step(env, hints, old(state), evt) && Inv(state)
      ensures key == Target(env, hints, old(state), evt)
      ensures made == null <==> Opened(env, hints, old(state), evt) == []
      ensures made != null ==> fresh(made) && made.requestKey == Opened(env, hints, old(state), evt)[0].Text()
      ensures made != null ==> Owned(made)
      ensures forall l <- ls :: Owned(l)
    {
      hide AllValid, LookupHint, SessionKeyText, RequestKeyText, Touch, Inv, Owned;
      key, made := "", null;
      StepKeepsInv(env, hints, state, evt);
      if Target(env, hints, state, evt) != "" {
        TargetBound(env, hints, state, evt);
      }
      if evt.protocol == Udp {
        return;
      }
      key := FindKey(evt.Flow());
      if key == "" && (evt.srcPort == 443 || evt.dstPort == 443) {
        var hint := LookupHint(env, hints, evt);
        if hint.Usable() {
          key := RegisterNew(evt, hint, ls);
        }
      }
      SameKeys();
      if key == "" || key !in sessions {
        key := "";
        return;
      }
      made := TouchBound(key, evt, ls);
    }

    /** Applies a packet to a bound session; the new log and the old ones are owned. */
    method TouchBound(key: string, evt: PacketEvent, ghost ls: set<RequestLog>) returns (made: RequestLog?)
      requires Valid() && key in sessions
      requires Bound(state, key)
      requires forall l <- ls :: Owned(l)
      modifies this`state, this`repr, repr
      ensures Valid() && fresh(repr - old(repr)) && old(repr) <= repr
      ensures state == old(state).(sessions := old(state).sessions[key := Touch(old(state).sessions[key], evt)])
      ensures made == null <==> !OpensRequest(evt)
      ensures made != null ==>
        fresh(made) && made.requestKey == RequestKeyText(key, old(state).sessions[key].requestCount + 1)
      ensures made != null ==> Owned(made)
      ensures forall l <- ls :: Owned(l)
    {
      made := TouchSession(key, evt);
      InState(key);
      forall l <- ls ensures Owned(l) {
        assert old(Owned(l));
        InState(l.sessionKey);
      }
    }

    lemma SameKeys()
      requires Valid()
      ensures sessions.Keys == state.sessions.Keys
    {
    }

    /**
     Merges a parse result.  The abstract state moves as Merge says, the touched
     keys are the packets' targets, and the map of request logs holds one fresh
     log for every request opened, under its key.  Each is the very object its
     session holds, so it reads as the session's log of that key does.
     */
    method MergeResult(parsed: ParseResult) returns (touched: set<string>, requestLogs: map<string, RequestLog>)
      requires Valid() && Inv(state) && PlainEnv(env) && forall e <- parsed.packetEvents :: PlainPacket(e)
      modifies this, repr
      ensures env == old(env)
      ensures Valid() && Inv(state) && fresh(repr - old(repr))
      ensures state == Merge(env, parsed.payloadHints, old(state), parsed.packetEvents)
      ensures touched == Touched(env, parsed.payloadHints, old(state), parsed.packetEvents)
      ensures requestLogs.Keys == Texts(Emitted(env, parsed.payloadHints, old(state), parsed.packetEvents))
      ensures forall k <- requestLogs :: fresh(requestLogs[k]) && requestLogs[k].requestKey == k
      ensures forall l <- requestLogs.Values :: Owned(l) && ReadsAsSessionLog(l)
    {
      hide AllValid, Step, Target, Opened, LookupHint, RequestKeyText, Inv;
      touched, requestLogs := {}, map[];
      var evts := parsed.packetEvents;
      var i := 0;
      assert evts[..0] == [];
      while i < |evts|
        invariant 0 <= i <= |evts|
        invariant Valid() && Inv(state) && fresh(repr - old(repr)) && env == old(env)
        invariant state == Merge(env, parsed.payloadHints, old(state), evts[..i])
        invariant touched == Touched(env, parsed.payloadHints, old(state), evts[..i])
        invariant requestLogs.Keys == Texts(Emitted(env, parsed.payloadHints, old(state), evts[..i]))
        invariant forall k <- requestLogs :: fresh(requestLogs[k]) && requestLogs[k].requestKey == k
        invariant forall l <- requestLogs.Values :: Owned(l)
      {
        PrefixStep(env, parsed.payloadHints, old(state), evts, i);
        assert evts[i] in evts;
        var key, made := StepPacket(parsed.payloadHints, evts[i], requestLogs.Values);
        if made != null {
          requestLogs := requestLogs[made.requestKey := made];
        }
        if key != "" {
          touched := touched + {key};
        }
        i := i + 1;
      }
      assert evts[..i] == evts;
      forall l <- requestLogs.Values ensures ReadsAsSessionLog(l) {
        OwnedView(l);
      }
    }

    /** The live sessions among the given keys, in some order. */
    method GetTouchedSessions(keys: set<string>) returns (rows: seq<Session>)
      requires Valid()
      ensures forall s <- rows ::
        s.id.sessionKey in keys && s.id.sessionKey in sessions && sessions[s.id.sessionKey] == s
      ensures forall k <- keys | k in sessions :: sessions[k] in rows
    {
      rows := [];
      var left := keys;
      while left != {}
        invariant left <= keys
        invariant forall s <- rows ::
          s.id.sessionKey in keys && s.id.sessionKey in sessions && sessions[s.id.sessionKey] == s
        invariant forall k <- keys | k !in left && k in sessions :: sessions[k] in rows
        decreases left
      {
        var k :| k in left;
        left := left - {k};
        if k in sessions {
          InState(k);
          rows := rows + [sessions[k]];
        }
      }
    }

    /** Loads open sessions at start-up. */
    method RestoreSessions(rows: seq<Session>)
      requires Valid() && forall s <- rows :: s.Valid()
      modifies this
      ensures env == old(env)
      ensures Valid() && state == Restore(old(state), SessionViews(rows))
      ensures forall o <- repr :: o in old(repr) || exists s <- rows :: o == s || o in s.logs
    {
      hide AllValid, Bind;
      var i := 0;
      assert SessionViews(rows)[..0] == [];
      while i < |rows|
        invariant 0 <= i <= |rows|
        invariant Valid() && state == Restore(old(state), SessionViews(rows)[..i]) && env == old(env)
        invariant forall s <- rows :: s.Valid() && s.view == old(s.view)
        invariant forall o <- repr :: o in old(repr) || exists s <- rows :: o == s || o in s.logs
      {
        assert rows[i] in rows;
        assert SessionViews(rows)[..i + 1][..i] == SessionViews(rows)[..i];
        Store(rows[i]);
        i := i + 1;
      }
      assert SessionViews(rows)[..i] == SessionViews(rows);
    }

    /**
     Closes and drops the idle sessions, visiting the keys in any order.  The
     abstract state is swept exactly, and the result holds each swept session
     once, closed.
     */
    method ExpireIdleSessions(currentEpoch: real) returns (expired: seq<Session>)
      requires Valid()
      modifies this, repr
      ensures env == old(env)
      ensures Valid() && repr == old(repr)
      ensures state == Sweep(env, old(state), currentEpoch)
      ensures IsExpired(expired, Tracker.Expired(env, old(state), currentEpoch))
      ensures forall s <- expired :: Listed(s, old(sessions))
      ensures forall k <- sessions :: k in old(sessions) && sessions[k] == old(sessions)[k]
    {
      hide AllValid, Idle, IsExpired, Sweep, SweepKeys, ExpiredKeys, Session.Valid;
      expired := [];
      SameKeys();
      var left := sessions.Keys;
      ghost var st, objects := state, sessions;
      SweepNone(env, st, currentEpoch);
      NoneExpired();
      assert objects.Keys - left == {};
      while left != {}
        invariant left <= objects.Keys
        invariant Valid() && repr == old(repr) && env == old(env)
        invariant state == SweepKeys(env, st, currentEpoch, objects.Keys - left)
        invariant forall k <- left :: k in sessions
        invariant forall k <- sessions :: k in objects && sessions[k] == objects[k]
        invariant IsExpired(expired, ExpiredKeys(env, st, currentEpoch, objects.Keys - left))
        invariant forall s <- expired :: Listed(s, objects) && s.id.sessionKey !in left
        decreases left
      {
        var key :| key in left;
        ghost var done := objects.Keys - left;
        left := left - {key};
        assert objects.Keys - left == done + {key};
        InState(key);
        expired := VisitSession(key, currentEpoch, expired, st, done, objects);
      }
      assert objects.Keys - left == st.sessions.Keys;
      SweepAll(env, st, currentEpoch);
    }

    /** One turn of the sweep: an idle session is closed, unbound and dropped. */
    method VisitSession(key: string, epoch: real, expired: seq<Session>, ghost st: State, ghost done: set<string>,
                        ghost objects: map<string, Session>) returns (expired': seq<Session>)
      requires Valid() && key in sessions && key !in done && key in objects && sessions[key] == objects[key]
      requires key in st.sessions && state == SweepKeys(env, st, epoch, done)
      requires IsExpired(expired, ExpiredKeys(env, st, epoch, done))
      requires forall s <- expired :: Listed(s, objects)
      modifies this, sessions[key]
      ensures env == old(env)
      ensures Valid() && repr == old(repr)
      ensures sessions == old(sessions) || sessions == old(sessions) - {key}
      ensures state == SweepKeys(env, st, epoch, done + {key})
      ensures IsExpired(expired', ExpiredKeys(env, st, epoch, done + {key}))
      ensures forall s <- expired' :: Listed(s, objects) && (s in expired || s.id.sessionKey == key)
    {
      hide AllValid, Idle, SweepKeys, ExpiredKeys, Drop, Session.Valid, Session.IsIdle;
      InState(key);
      InSweep(env, st, epoch, done, key);
      SweepOneMore(env, st, epoch, done, key);
      ExpiredOneMore(env, st, epoch, done, key);
      var session := sessions[key];
      session.IdleAgrees(env, epoch);
      assert session !in expired;
      expired' := expired;
      if session.IsIdle(env, epoch) {
        DropSession(session);
        OneMoreExpired(expired, ExpiredKeys(env, st, epoch, done), session);
        expired' := expired + [session];
      }
    }

    /** Closes a session, removes the bindings that are its own, and forgets it. */
    method DropSession(session: Session)
      requires Valid() && session.id.sessionKey in sessions && sessions[session.id.sessionKey] == session
      modifies this, session
      ensures env == old(env)
      ensures Valid() && repr == old(repr) && sessions == old(sessions) - {session.id.sessionKey}
      ensures state == Drop(old(state), session.id)
      ensures session.Valid() && session.view == Tracker.Expire(old(session.view))
    {
      hide AllValid, Session.Valid;
      ghost var key := session.id.sessionKey;
      InState(key);
      session.Expire();
      OthersKept(key, repr);
      AllValidDrop(sessions, state.sessions[key := session.view], repr, key);
      assert state.sessions[key := session.view] - {key} == state.sessions - {key};
      Forget(session.id);
    }

    method Forget(id: SessionId)
      requires state.flowMap == flowMap && state.revMap == revMap && this !in repr
      requires AllValid(sessions - {id.sessionKey}, state.sessions - {id.sessionKey}, repr)
      modifies this
      ensures env == old(env)
      ensures Valid() && repr == old(repr) && sessions == old(sessions) - {id.sessionKey}
      ensures state == Drop(old(state), id)
    {
      hide SessionValid;
      if Get(flowMap, id.flow) == id.sessionKey {
        flowMap := flowMap - {id.flow};
      }
      if Get(revMap, id.flow.Reverse()) == id.sessionKey {
        revMap := revMap - {id.flow.Reverse()};
      }
      sessions := sessions - {id.sessionKey};
      state := Drop(state, id);
    }

    ghost predicate ReadsAsSessionLog(l: RequestLog)
      reads this, l
    {
      l.sessionKey in state.sessions && l.View() in state.sessions[l.sessionKey].logs
    }

    lemma OwnedView(l: RequestLog)
      requires Valid() && Owned(l)
      ensures ReadsAsSessionLog(l)
    {
      InState(l.sessionKey);
      var s := sessions[l.sessionKey];
      var i :| 0 <= i < |s.logs| && s.logs[i] == l;
      assert s.view.logs[i] == l.View();
    }
  }

  ghost function SessionViews(rows: seq<Session>): seq<SessionView>
    reads rows
  {
    seq(|rows|, i requires 0 <= i < |rows| reads rows => rows[i].view)
  }

  predicate HasSession(list: seq<Session>, key: string) {
    exists i | 0 <= i < |list| :: list[i].id.sessionKey == key
  }

  /** The list holds exactly the sessions of the map, each once and looking as the map says. */
  ghost predicate IsExpired(list: seq<Session>, views: map<string, SessionView>)
    reads list
  {
    && (forall s <- list :: s.id.sessionKey in views && s.view == views[s.id.sessionKey])
    && (forall k <- views :: HasSession(list, k))
    && (forall i, j | 0 <= i < j < |list| :: list[i].id.sessionKey != list[j].id.sessionKey)
  }

  ghost predicate Listed(s: Session, objects: map<string, Session>)
    reads s, s.logs
  {
    s.id.sessionKey in objects && s == objects[s.id.sessionKey] && s.Valid()
  }

  lemma NoneExpired()
    ensures IsExpired([], map[])
  {
  }

  lemma OneMoreExpired(list: seq<Session>, views: map<string, SessionView>, s: Session)
    requires IsExpired(list, views) && s.id.sessionKey !in views
    ensures IsExpired(list + [s], views[s.id.sessionKey := s.view])
  {
    var list' := list + [s];
    assert list'[|list|] == s;
    forall k <- views ensures HasSession(list', k) {
      var i :| 0 <= i < |list| && list[i].id.sessionKey == k;
      assert list'[i] == list[i];
    }
  }

  // ---- a sweep that has visited some of the keys --------------------------

  function SweepKeys(env: Env, st: State, epoch: real, done: set<string>): State {
    State(st.sessions - (IdleKeys(env, st, epoch) * done),
          st.flowMap - (set f | f in st.flowMap && st.flowMap[f] in done && Unbinds(env, st, epoch, f, st.flowMap[f])),
          st.revMap - (set f | f in st.revMap && st.revMap[f] in done
              && Unbinds(env, st, epoch, f.Reverse(), st.revMap[f])))
  }

  ghost function ExpiredKeys(env: Env, st: State, epoch: real, done: set<string>): map<string, SessionView> {
    CloseAll(st.sessions, IdleKeys(env, st, epoch) * done)
  }

  lemma SweepNone(env: Env, st: State, epoch: real)
    ensures SweepKeys(env, st, epoch, {}) == st
    ensures ExpiredKeys(env, st, epoch, {}) == map[]
  {
    var a := SweepKeys(env, st, epoch, {});
    assert a.sessions == st.sessions && a.flowMap == st.flowMap && a.revMap == st.revMap;
  }

  lemma SweepAll(env: Env, st: State, epoch: real)
    ensures SweepKeys(env, st, epoch, st.sessions.Keys) == Sweep(env, st, epoch)
    ensures ExpiredKeys(env, st, epoch, st.sessions.Keys) == Tracker.Expired(env, st, epoch)
  {
    var a, b := SweepKeys(env, st, epoch, st.sessions.Keys), Sweep(env, st, epoch);
    assert a.sessions == b.sessions && a.flowMap == b.flowMap && a.revMap == b.revMap;
  }

  /** Dropping a session drops a binding only if it is its own. */
  function Drop(st: State, s: SessionId): State {
    State(st.sessions - {s.sessionKey},
          if Get(st.flowMap, s.flow) == s.sessionKey then st.flowMap - {s.flow} else st.flowMap,
          if Get(st.revMap, s.flow.Reverse()) == s.sessionKey then st.revMap - {s.flow.Reverse()} else st.revMap)
  }

  /** Visiting one more key drops its session, and its own bindings, when it is idle. */
  lemma SweepOneMore(env: Env, st: State, epoch: real, done: set<string>, key: string)
    requires key in st.sessions && key !in done && st.sessions[key].id.sessionKey == key
    ensures SweepKeys(env, st, epoch, done + {key})
         == if Idle(env, st.sessions[key], epoch) then Drop(SweepKeys(env, st, epoch, done), st.sessions[key].id)
            else SweepKeys(env, st, epoch, done)
  {
    hide Idle;
    var a, b := SweepKeys(env, st, epoch, done + {key}), SweepKeys(env, st, epoch, done);
    if Idle(env, st.sessions[key], epoch) {
      var d := Drop(b, st.sessions[key].id);
      assert a.sessions == d.sessions;
      FlowDropped(env, st, epoch, done, key);
      RevDropped(env, st, epoch, done, key);
    } else {
      NothingDropped(env, st, epoch, done, key);
    }
  }

  lemma NothingDropped(env: Env, st: State, epoch: real, done: set<string>, key: string)
    requires key in st.sessions && !Idle(env, st.sessions[key], epoch)
    ensures SweepKeys(env, st, epoch, done + {key}) == SweepKeys(env, st, epoch, done)
  {
    hide Idle;
    var a, b := SweepKeys(env, st, epoch, done + {key}), SweepKeys(env, st, epoch, done);
    assert a.sessions == b.sessions;
    assert a.flowMap == b.flowMap;
    assert a.revMap == b.revMap;
  }

  lemma ExpiredOneMore(env: Env, st: State, epoch: real, done: set<string>, key: string)
    requires key in st.sessions && key !in done
    ensures ExpiredKeys(env, st, epoch, done + {key})
         == if Idle(env, st.sessions[key], epoch)
           then ExpiredKeys(env, st, epoch, done)[key := Tracker.Expire(st.sessions[key])]
            else ExpiredKeys(env, st, epoch, done)
  {
    hide Idle, CloseAll, Tracker.Expire;
    var idle := IdleKeys(env, st, epoch);
    assert idle * (done + {key}) == if key in idle then idle * done + {key} else idle * done;
  }

  /** A key not yet visited is still live, and its expired row is not listed. */
  lemma InSweep(env: Env, st: State, epoch: real, done: set<string>, key: string)
    requires key in st.sessions && key !in done
    ensures key in SweepKeys(env, st, epoch, done).sessions
    ensures SweepKeys(env, st, epoch, done).sessions[key] == st.sessions[key]
    ensures key !in ExpiredKeys(env, st, epoch, done)
  {
  }

  lemma FlowDropped(env: Env, st: State, epoch: real, done: set<string>, key: string)
    requires key in st.sessions && key !in done && st.sessions[key].id.sessionKey == key
    requires Idle(env, st.sessions[key], epoch)
    ensures SweepKeys(env, st, epoch, done + {key}).flowMap
         == Drop(SweepKeys(env, st, epoch, done), st.sessions[key].id).flowMap
  {
    hide Idle;
  }

  lemma RevDropped(env: Env, st: State, epoch: real, done: set<string>, key: string)
    requires key in st.sessions && key !in done && st.sessions[key].id.sessionKey == key
    requires Idle(env, st.sessions[key], epoch)
    ensures SweepKeys(env, st, epoch, done + {key}).revMap
         == Drop(SweepKeys(env, st, epoch, done), st.sessions[key].id).revMap
  {
    hide Idle;
    var g := st.sessions[key].id.flow;
    forall f: FlowKey ensures f.Reverse() == g <==> f == g.Reverse() {
    }
  }

  /** The keys of the sessions a merge applies packets to. */
  function Touched(env: Env, hints: map<FlowKey, string>, st: State, evts: seq<PacketEvent>): set<string> {
    if evts == [] then {}
    else
      var init := evts[..|evts| - 1];
      var key := Target(env, hints, Merge(env, hints, st, init), evts[|evts| - 1]);
      Touched(env, hints, st, init) + if key == "" then {} else {key}
  }

  lemma {:induction false} PrefixStep(env: Env, hints: map<FlowKey, string>, st: State, evts: seq<PacketEvent>, i: nat)
    requires i < |evts|
    ensures Merge(env, hints, st, evts[..i + 1]) == Step(env, hints, Merge(env, hints, st, evts[..i]), evts[i])
    ensures var key := Target(env, hints, Merge(env, hints, st, evts[..i]), evts[i]);
      Touched(env, hints, st, evts[..i + 1]) == Touched(env, hints, st, evts[..i]) + if key == "" then {} else {key}
    ensures var o := Opened(env, hints, Merge(env, hints, st, evts[..i]), evts[i]);
      && |o| <= 1
      && Texts(Emitted(env, hints, st, evts[..i + 1]))
         == Texts(Emitted(env, hints, st, evts[..i])) + if o == [] then {} else {o[0].Text()}
  {
    hide Step, Target, LookupHint, RequestKeyText;
    assert evts[..i + 1][..i] == evts[..i];
    OpenedShort(env, hints, Merge(env, hints, st, evts[..i]), evts[i]);
  }
}
