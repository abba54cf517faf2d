/**
 The session tracker as a pure state machine: the sessions, the two flow
 indexes, one step per packet, the idle sweep and the restore.  The class in
 Engine.dfy is proved to compute exactly these functions.
 */
module Tracker {
  import opened Model
  import opened Keys

  datatype IPHint = IPHint(domain: string, vendor: string)

  /** From a domain to its vendor, "" for no match. */
  type Matcher = string -> string

  /** What the engine is configured with; only the matcher may be replaced while it runs. */
  datatype Env = Env(iface: string, idleSeconds: int, vendorOf: Matcher, ipHints: map<string, IPHint>) {
    function With(matcher: Matcher): Env {
      this.(vendorOf := matcher)
    }
  }

  datatype State = State(sessions: map<string, SessionView>, flowMap: map<FlowKey, string>,
                         revMap: map<FlowKey, string>)

  const EMPTY: State := State(map[], map[], map[])

  datatype Hint = Hint(domain: string, vendor: string) {
    predicate Usable() {
      domain != "" && vendor != ""
    }
  }

  /** A missing key reads as the empty string. */
  function Get(m: map<FlowKey, string>, f: FlowKey): string {
    if f in m then m[f] else ""
  }

  function LookupHint(env: Env, payloadHints: map<FlowKey, string>, evt: PacketEvent): Hint {
    var f := evt.Flow();
    var targetIP := if evt.srcPort == 443 then evt.srcIP else evt.dstIP;
    if f in payloadHints && env.vendorOf(payloadHints[f]) != "" then
      Hint(payloadHints[f], env.vendorOf(payloadHints[f]))
    else if f.Reverse() in payloadHints && env.vendorOf(payloadHints[f.Reverse()]) != "" then
      Hint(payloadHints[f.Reverse()], env.vendorOf(payloadHints[f.Reverse()]))
    else if targetIP in env.ipHints then
      Hint(env.ipHints[targetIP].domain, env.ipHints[targetIP].vendor)
    else
      Hint("", "")
  }

  /** The session key bound to a flow, looked up forward and then in reverse. */
  function Find(st: State, f: FlowKey): string {
    if Get(st.flowMap, f) != "" then Get(st.flowMap, f) else Get(st.revMap, f)
  }

  function NewKey(env: Env, evt: PacketEvent, hint: Hint): string {
    SessionKeyText(env.iface, evt.ClientFlow(), hint.domain, Trunc(evt.epoch))
  }

  function NewSession(env: Env, evt: PacketEvent, hint: Hint): SessionView {
    SessionView(
      SessionId(NewKey(env, evt, hint), env.iface, evt.ClientFlow(), hint.vendor, hint.domain),
      OfEpoch(evt.epoch), OfEpoch(evt.epoch), Unset, Open, 0, 0, 0, 0, 0, evt.epoch, evt.epoch, [])
  }

  /** Stores a session under its key and binds its flow in both indexes. */
  function Bind(st: State, s: SessionView): State {
    State(st.sessions[s.id.sessionKey := s],
          st.flowMap[s.id.flow := s.id.sessionKey],
          st.revMap[s.id.flow.Reverse() := s.id.sessionKey])
  }

  function Register(env: Env, st: State, evt: PacketEvent, hint: Hint): State {
    Bind(st, NewSession(env, evt, hint))
  }

  /** Whether a TCP packet makes the engine open a session. */
  predicate Registers(env: Env, hints: map<FlowKey, string>, st: State, evt: PacketEvent) {
    && evt.protocol.Tcp?
    && Find(st, evt.Flow()) == ""
    && (evt.srcPort == 443 || evt.dstPort == 443)
    && LookupHint(env, hints, evt).Usable()
  }

  function FindOrRegister(env: Env, hints: map<FlowKey, string>, st: State, evt: PacketEvent): State {
    if Registers(env, hints, st, evt) then Register(env, st, evt, LookupHint(env, hints, evt)) else st
  }

  /** A positive uplink packet opens a request log. */
  predicate OpensRequest(evt: PacketEvent) {
    evt.dstPort == 443 && evt.length > 0
  }

  /** The request log that uplink packet opens as request number `n` of a session. */
  function NewRequest(sessionKey: string, n: int, evt: PacketEvent): RequestView {
    RequestView(RequestKeyText(sessionKey, n), sessionKey, OfEpoch(evt.epoch), evt.length, 0, 0)
  }

  function AddDownlink(r: RequestView, n: nat): RequestView {
    r.(downlinkBytes := r.downlinkBytes + n, totalBytes := r.uplinkBytes + (r.downlinkBytes + n))
  }

  /** A positive downlink packet is credited to the pending request, the last log, if any. */
  function LogsAfter(sessionKey: string, requestCount: int, logs: seq<RequestView>,
                     evt: PacketEvent): seq<RequestView> {
    if OpensRequest(evt) then logs + [NewRequest(sessionKey, requestCount + 1, evt)]
    else if evt.dstPort != 443 && evt.length > 0 && logs != [] then
      logs[|logs| - 1 := AddDownlink(logs[|logs| - 1], evt.length)]
    else logs
  }

  function ApplyPacket(s: SessionView, evt: PacketEvent): SessionView {
    s.(packetCount := s.packetCount + 1,
       lastSeen := OfEpoch(evt.epoch),
       lastSeenEpoch := evt.epoch,
       uplinkBytes := if evt.dstPort == 443 then s.uplinkBytes + evt.length else s.uplinkBytes,
       downlinkBytes := if evt.dstPort == 443 then s.downlinkBytes else s.downlinkBytes + evt.length,
       totalBytes := s.totalBytes + evt.length,
       requestCount := if OpensRequest(evt) then s.requestCount + 1 else s.requestCount,
       logs := LogsAfter(s.id.sessionKey, s.requestCount, s.logs, evt))
  }

  function Touch(s: SessionView, evt: PacketEvent): SessionView {
    var a := ApplyPacket(s, evt);
    if evt.isClose then a.(status := Closed, closedAt := OfEpoch(evt.epoch)) else a
  }

  /** The session a packet is applied to, or "" when it is applied to none. */
  function Target(env: Env, hints: map<FlowKey, string>, st: State, evt: PacketEvent): string {
    if evt.protocol.Udp? then ""
    else
      var st' := FindOrRegister(env, hints, st, evt);
      var key := if Registers(env, hints, st, evt) then NewKey(env, evt, LookupHint(env, hints, evt))
        else Find(st, evt.Flow());
      if key in st'.sessions then key else ""
  }

  function Step(env: Env, hints: map<FlowKey, string>, st: State, evt: PacketEvent): State {
    var st' := FindOrRegister(env, hints, st, evt);
    var key := Target(env, hints, st, evt);
    if key == "" || key !in st'.sessions then st'
    else st'.(sessions := st'.sessions[key := Touch(st'.sessions[key], evt)])
  }

  function Merge(env: Env, hints: map<FlowKey, string>, st: State, evts: seq<PacketEvent>): State {
    if evts == [] then st
    else Step(env, hints, Merge(env, hints, st, evts[..|evts| - 1]), evts[|evts| - 1])
  }

  // ---- idle sweep -------------------------------------------------------

  function IdleSince(s: SessionView): real {
    if s.lastSeenEpoch == 0.0 then s.firstSeenEpoch else s.lastSeenEpoch
  }

  predicate Idle(env: Env, s: SessionView, epoch: real) {
    epoch - IdleSince(s) >= env.idleSeconds as real
  }

  function Expire(s: SessionView): SessionView {
    s.(status := Closed, closedAt := if s.closedAt.Unset? then OfEpoch(IdleSince(s)) else s.closedAt)
  }

  predicate Swept(env: Env, st: State, epoch: real, key: string) {
    key in st.sessions && Idle(env, st.sessions[key], epoch)
  }

  function IdleKeys(env: Env, st: State, epoch: real): set<string> {
    set k | k in st.sessions && Idle(env, st.sessions[k], epoch)
  }

  /** A binding goes when the session it names is swept and has exactly that flow. */
  predicate Unbinds(env: Env, st: State, epoch: real, f: FlowKey, key: string) {
    Swept(env, st, epoch, key) && st.sessions[key].id.flow == f
  }

  function Sweep(env: Env, st: State, epoch: real): State {
    State(st.sessions - IdleKeys(env, st, epoch),
          st.flowMap - (set f | f in st.flowMap && Unbinds(env, st, epoch, f, st.flowMap[f])),
          st.revMap - (set f | f in st.revMap && Unbinds(env, st, epoch, f.Reverse(), st.revMap[f])))
  }

  /** The closed rows of the sessions with the given keys. */
  ghost function CloseAll(sessions: map<string, SessionView>, keys: set<string>): (rows: map<string, SessionView>)
    ensures rows.Keys == sessions.Keys * keys
    ensures forall k <- rows :: rows[k] == Expire(sessions[k])
  {
    if keys == {} then map[]
    else
      var k :| k in keys;
      var rest := CloseAll(sessions, keys - {k});
      if k in sessions then rest[k := Expire(sessions[k])] else rest
  }

  /** The rows of the sessions a sweep closes. */
  ghost function Expired(env: Env, st: State, epoch: real): map<string, SessionView> {
    CloseAll(st.sessions, IdleKeys(env, st, epoch))
  }

  // ---- restore ----------------------------------------------------------

  function Restore(st: State, rows: seq<SessionView>): State {
    if rows == [] then st
    else Bind(Restore(st, rows[..|rows| - 1]), rows[|rows| - 1])
  }

  // ---- runs -------------------------------------------------------------

  /**
   What the writer asks of the engine: merge one parse result with the matcher
   then in force, or sweep at an epoch.
   */
  datatype Op = MergeOp(matcher: Matcher, hints: map<FlowKey, string>, evts: seq<PacketEvent>) | SweepOp(epoch: real)

  function Apply(env: Env, st: State, op: Op): State {
    match op
    case MergeOp(matcher, hints, evts) => Merge(env.With(matcher), hints, st, evts)
    case SweepOp(epoch) => Sweep(env, st, epoch)
  }

  function Run(env: Env, st: State, ops: seq<Op>): State {
    if ops == [] then st
    else Apply(env, Run(env, st, ops[..|ops| - 1]), ops[|ops| - 1])
  }

  lemma {:induction false} MergeConcat(env: Env, hints: map<FlowKey, string>, st: State, a: seq<PacketEvent>,
                                       b: seq<PacketEvent>)
    ensures Merge(env, hints, st, a + b) == Merge(env, hints, Merge(env, hints, st, a), b)
  {
    if b == [] {
      assert a + b == a;
    } else {
      MergeConcat(env, hints, st, a, b[..|b| - 1]);
      assert (a + b)[..|a + b| - 1] == a + b[..|b| - 1];
    }
  }
}
