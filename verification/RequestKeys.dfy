/**
 Request keys.  `request_logs.request_key` is unique in the database, and one
 repeated key makes a whole insert batch fail.  Within one merge no key
 repeats, in any reachable state.
 */
module RequestKeys {
  import opened Model
  import opened Keys
  import opened Lists
  import opened Tracker
  import opened Indexes

  /** A request by session key and number. */
  datatype Req = Req(session: string, number: int) {
    function Text(): string {
      RequestKeyText(session, number)
    }
  }

  /** The request a packet opens, if it opens one. */
  function Opened(env: Env, hints: map<FlowKey, string>, st: State, evt: PacketEvent): seq<Req> {
    var key, st' := Target(env, hints, st, evt), FindOrRegister(env, hints, st, evt);
    if key != "" && key in st'.sessions && OpensRequest(evt) then [Req(key, st'.sessions[key].requestCount + 1)] else []
  }

  /** The requests opened by a merge, in order. */
  function Emitted(env: Env, hints: map<FlowKey, string>, st: State, evts: seq<PacketEvent>): seq<Req> {
    if evts == [] then []
    else
      var init := evts[..|evts| - 1];
      Emitted(env, hints, st, init) + Opened(env, hints, Merge(env, hints, st, init), evts[|evts| - 1])
  }

  function CountFor(reqs: seq<Req>, key: string): nat {
    if reqs == [] then 0
    else CountFor(reqs[..|reqs| - 1], key) + if reqs[|reqs| - 1].session == key then 1 else 0
  }

  /** The map keyed by text collapses no two requests. */
  lemma TextsDistinct(reqs: seq<Req>)
    requires Distinct(reqs)
    ensures forall i, j | 0 <= i < j < |reqs| :: reqs[i].Text() != reqs[j].Text()
  {
    forall i, j | 0 <= i < j < |reqs| ensures reqs[i].Text() != reqs[j].Text() {
      if reqs[i].Text() == reqs[j].Text() {
        RequestKeyInjective(reqs[i].session, reqs[i].number, reqs[j].session, reqs[j].number);
      }
    }
  }

  /** The keys of the map that a merge fills. */
  function Texts(reqs: seq<Req>): set<string> {
    set r | r in reqs :: r.Text()
  }

  lemma {:induction false} TextsCount(reqs: seq<Req>)
    requires Distinct(reqs)
    ensures |Texts(reqs)| == |reqs|
  {
    hide Req.Text;
    if reqs != [] {
      var init, r := reqs[..|reqs| - 1], reqs[|reqs| - 1];
      TextsCount(init);
      TextsDistinct(reqs);
      assert forall x <- init :: x in reqs;
      assert forall x <- reqs :: x in init || x == r;
      assert Texts(reqs) == Texts(init) + {r.Text()};
      assert r.Text() !in Texts(init);
    }
  }

  // ---- one step -------------------------------------------------------------

  /** A request belongs to a bound session and is not numbered beyond its count. */
  predicate Covered(st: State, r: Req) {
    && r.session in st.sessions
    && st.sessions[r.session].id.flow in st.flowMap
    && st.flowMap[st.sessions[r.session].id.flow] == r.session
    && r.number <= st.sessions[r.session].requestCount
  }

  lemma RegisterKeepsCovered(env: Env, hints: map<FlowKey, string>, st: State, evt: PacketEvent, r: Req)
    requires PlainEnv(env) && PlainPacket(evt) && Inv(st) && Covered(st, r)
    ensures Covered(FindOrRegister(env, hints, st, evt), r)
    ensures FindOrRegister(env, hints, st, evt).sessions[r.session] == st.sessions[r.session]
  {
    hide LookupHint, SessionKeyText;
    if Registers(env, hints, st, evt) {
      RegisterOverwritesNothing(st, evt);
      NewKeyUnbound(env, st, evt, LookupHint(env, hints, evt));
    }
  }

  lemma StepKeepsCovered(env: Env, hints: map<FlowKey, string>, st: State, evt: PacketEvent, r: Req)
    requires PlainEnv(env) && PlainPacket(evt) && Inv(st) && Covered(st, r)
    ensures Covered(Step(env, hints, st, evt), r)
  {
    hide LookupHint, SessionKeyText, FindOrRegister, Target;
    RegisterKeepsCovered(env, hints, st, evt, r);
  }

  lemma TargetBound(env: Env, hints: map<FlowKey, string>, st: State, evt: PacketEvent)
    requires PlainEnv(env) && PlainPacket(evt) && Inv(st)
    requires Target(env, hints, st, evt) != ""
    ensures var key, st' := Target(env, hints, st, evt), FindOrRegister(env, hints, st, evt);
      && key in st'.sessions && st'.sessions[key].id.flow in st'.flowMap
        && st'.flowMap[st'.sessions[key].id.flow] == key
      && st'.sessions[key].id.sessionKey == key
  {
    hide LookupHint, SessionKeyText;
    if !Registers(env, hints, st, evt) {
      var f := evt.Flow();
      if Get(st.flowMap, f) == "" {
        assert f.Reverse() in st.flowMap;
      }
    }
  }

  /** What a packet opens is covered afterwards and was not covered before. */
  lemma OpenedIsNew(env: Env, hints: map<FlowKey, string>, st: State, evt: PacketEvent)
    requires PlainEnv(env) && PlainPacket(evt) && Inv(st)
    ensures forall r <- Opened(env, hints, st, evt) :: Covered(Step(env, hints, st, evt), r) && !Covered(st, r)
  {
    hide LookupHint, SessionKeyText;
    forall r <- Opened(env, hints, st, evt) ensures Covered(Step(env, hints, st, evt), r) && !Covered(st, r) {
      hide FindOrRegister, Target;
      TargetBound(env, hints, st, evt);
      if Covered(st, r) {
        RegisterKeepsCovered(env, hints, st, evt, r);
      }
    }
  }

  // ---- one merge -----------------------------------------------------------

  /** In every reachable state, the requests of one merge are distinct, and so are their keys. */
  lemma {:induction false} MergeKeysDistinct(env: Env, hints: map<FlowKey, string>, st: State, evts: seq<PacketEvent>)
    requires PlainEnv(env) && Inv(st) && forall e <- evts :: PlainPacket(e)
    ensures Distinct(Emitted(env, hints, st, evts))
    ensures forall r <- Emitted(env, hints, st, evts) :: Covered(Merge(env, hints, st, evts), r)
  {
    hide Step, Opened, Covered, LookupHint, Inv;
    if evts != [] {
      var init, e := evts[..|evts| - 1], evts[|evts| - 1];
      assert e in evts;
      var mid := Merge(env, hints, st, init);
      MergeKeepsInv(env, hints, st, init) by {
        assert forall x <- init :: x in evts;
      }
      MergeKeysDistinct(env, hints, st, init);
      OpenedIsNew(env, hints, mid, e);
      OpenedShort(env, hints, mid, e);
      forall r <- Emitted(env, hints, st, init) ensures Covered(Step(env, hints, mid, e), r) {
        StepKeepsCovered(env, hints, mid, e, r);
      }
      var a, o := Emitted(env, hints, st, init), Opened(env, hints, mid, e);
      forall r <- o ensures r !in a {
        assert !Covered(mid, r);
      }
      assert |o| == 1 ==> o[0] in o;
      assert Distinct(a + o);
    }
  }

  /** The map of request logs that a merge returns holds one log per request opened. */
  lemma {:induction false} MergeCollapsesNothing(env: Env, hints: map<FlowKey, string>, st: State,
          evts: seq<PacketEvent>)
    requires PlainEnv(env) && Inv(st) && forall e <- evts :: PlainPacket(e)
    ensures |Texts(Emitted(env, hints, st, evts))| == |Emitted(env, hints, st, evts)|
  {
    MergeKeysDistinct(env, hints, st, evts);
    TextsCount(Emitted(env, hints, st, evts));
  }

  lemma OpenedShort(env: Env, hints: map<FlowKey, string>, st: State, evt: PacketEvent)
    ensures |Opened(env, hints, st, evt)| <= 1
  {
  }

  /** The request count of a live session; zero when there is none. */
  function Base(st: State, key: string): int {
    if key in st.sessions then st.sessions[key].requestCount else 0
  }

  /** The request count lost when a registration takes the key of a live session. */
  function Replaced(env: Env, hints: map<FlowKey, string>, st: State, evt: PacketEvent, key: string): int {
    if Registers(env, hints, st, evt) && NewKey(env, evt, LookupHint(env, hints, evt)) == key then Base(st, key) else 0
  }

  function ReplacedIn(env: Env, hints: map<FlowKey, string>, st: State, evts: seq<PacketEvent>, key: string): int {
    if evts == [] then 0
    else
      var init := evts[..|evts| - 1];
      ReplacedIn(env, hints, st, init, key) + Replaced(env, hints, Merge(env, hints, st, init), evts[|evts| - 1], key)
  }

  lemma {:induction false} CountStep(env: Env, hints: map<FlowKey, string>, st: State, evt: PacketEvent, key: string)
    ensures Base(Step(env, hints, st, evt), key)
         == Base(st, key) - Replaced(env, hints, st, evt, key) + CountFor(Opened(env, hints, st, evt), key)
  {
    hide LookupHint, SessionKeyText, FindOrRegister, Target, LogsAfter;
    RegisterBase(env, hints, st, evt, key);
    var o := Opened(env, hints, st, evt);
    assert o != [] ==> o[..0] == [];
  }

  lemma RegisterBase(env: Env, hints: map<FlowKey, string>, st: State, evt: PacketEvent, key: string)
    ensures Base(FindOrRegister(env, hints, st, evt), key) == Base(st, key) - Replaced(env, hints, st, evt, key)
  {
  }

  lemma {:induction false} CountForConcat(a: seq<Req>, b: seq<Req>, key: string)
    requires |b| <= 1
    ensures CountFor(a + b, key) == CountFor(a, key) + CountFor(b, key)
  {
    if b == [] {
      assert a + b == a;
    } else {
      assert (a + b)[..|a|] == a && b[..0] == [];
    }
  }

  /**
   Each session's request count grows by exactly the number of requests
   emitted for it, less what replaced sessions had.
   */
  lemma {:induction false} CountsMatchEmitted(env: Env, hints: map<FlowKey, string>, st: State,
          evts: seq<PacketEvent>, key: string)
    ensures Base(Merge(env, hints, st, evts), key)
         == Base(st, key) - ReplacedIn(env, hints, st, evts, key) + CountFor(Emitted(env, hints, st, evts), key)
  {
    hide Step, Opened, LookupHint, Base, Replaced;
    if evts != [] {
      var init, e := evts[..|evts| - 1], evts[|evts| - 1];
      var mid := Merge(env, hints, st, init);
      CountsMatchEmitted(env, hints, st, init, key);
      CountStep(env, hints, mid, e, key);
      OpenedShort(env, hints, mid, e);
      CountForConcat(Emitted(env, hints, st, init), Opened(env, hints, mid, e), key);
    }
  }

  /** A bound session is never replaced; only a live session whose binding another row of its four-tuple took can be. */
  lemma {:induction false} BoundNotReplaced(env: Env, hints: map<FlowKey, string>, st: State, evts: seq<PacketEvent>,
                                            key: string)
    requires PlainEnv(env) && Inv(st) && forall e <- evts :: PlainPacket(e)
    requires key in st.sessions ==> Bound(st, key)
    ensures ReplacedIn(env, hints, st, evts, key) == 0
    ensures var after := Merge(env, hints, st, evts); key in after.sessions ==> Bound(after, key)
  {
    hide Step, LookupHint, Inv, Bound, Replaced;
    if evts != [] {
      var init, e := evts[..|evts| - 1], evts[|evts| - 1];
      assert e in evts && forall x <- init :: x in evts;
      BoundNotReplaced(env, hints, st, init, key);
      MergeKeepsInv(env, hints, st, init);
      StepKeepsBound(env, hints, Merge(env, hints, st, init), e, key);
    }
  }

  /** The flow index leads to the session. */
  predicate Bound(st: State, key: string) {
    key in st.sessions && st.sessions[key].id.flow in st.flowMap && st.flowMap[st.sessions[key].id.flow] == key
  }

  lemma RegisterKeepsBound(env: Env, hints: map<FlowKey, string>, st: State, evt: PacketEvent, key: string)
    requires PlainEnv(env) && PlainPacket(evt) && Inv(st) && (key in st.sessions ==> Bound(st, key))
    ensures Replaced(env, hints, st, evt, key) == 0
    ensures var st' := FindOrRegister(env, hints, st, evt); key in st'.sessions ==> Bound(st', key)
  {
    hide LookupHint, SessionKeyText, Inv, Find, Get, PlainPacket, PlainEnv;
    if Registers(env, hints, st, evt) {
      RegisterOverwritesNothing(st, evt);
      NewKeyUnbound(env, st, evt, LookupHint(env, hints, evt));
    }
  }

  lemma StepKeepsBound(env: Env, hints: map<FlowKey, string>, st: State, evt: PacketEvent, key: string)
    requires PlainEnv(env) && PlainPacket(evt) && Inv(st) && (key in st.sessions ==> Bound(st, key))
    ensures Replaced(env, hints, st, evt, key) == 0
    ensures var after := Step(env, hints, st, evt); key in after.sessions ==> Bound(after, key)
  {
    hide LookupHint, SessionKeyText, FindOrRegister, Target, Inv, Replaced, LogsAfter;
    RegisterKeepsBound(env, hints, st, evt, key);
  }
}
