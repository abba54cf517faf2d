/**
 What the session table adds up to.  Every counted packet belongs to one life of
 a session key, and a key registered again after its first life was swept takes
 over the row of that life.  So the table adds up to all counted packets exactly
 when no session key is registered twice.
 */
module TableSums {
  import opened Model
  import opened Keys
  import opened Lists
  import opened Tracker
  import opened Indexes
  import opened Windowing
  import opened MergeOrder
  import opened RequestLives
  import opened WindowKeys
  import opened Store
  import opened Writer

  function SessionTotals(s: SessionView): Totals {
    Totals(s.uplinkBytes, s.downlinkBytes, s.packetCount, s.requestCount)
  }

  function RowTotals(r: Row): Totals {
    Totals(r.uplinkBytes, r.downlinkBytes, r.packetCount, r.requestCount)
  }

  /** One life of a session key, from a registration to the sweep, and what its packets come to. */
  datatype Stay = Stay(key: string, totals: Totals)

  /** The latest life of a key has one more packet. */
  function Extend(stays: seq<Stay>, key: string, x: Totals): seq<Stay> {
    if stays == [] then []
    else
      var init, y := stays[..|stays| - 1], stays[|stays| - 1];
      if y.key == key then init + [y.(totals := y.totals.Plus(x))] else Extend(init, key, x) + [y]
  }

  function StaysNext(env: Env, hints: map<FlowKey, string>, st: State, evt: PacketEvent, stays: seq<Stay>): seq<Stay> {
    if Registers(env, hints, st, evt) then stays + [Stay(NewKey(env, evt, LookupHint(env, hints, evt)), Share(evt))]
    else if Target(env, hints, st, evt) != "" then Extend(stays, Target(env, hints, st, evt), Share(evt))
    else stays
  }

  function StaysMerged(env: Env, hints: map<FlowKey, string>, st: State, evts: seq<PacketEvent>,
                       stays: seq<Stay>): seq<Stay> {
    if evts == [] then stays
    else
      var init, p := evts[..|evts| - 1], evts[|evts| - 1];
      StaysNext(env, hints, Merge(env, hints, st, init), p, StaysMerged(env, hints, st, init, stays))
  }

  /** The lives of all session keys over some jobs, in order of registration. */
  ghost function Stays(env: Env, jobs: seq<Job>): seq<Stay> {
    if jobs == [] then []
    else
      var init, w := jobs[..|jobs| - 1], jobs[|jobs| - 1];
      StaysMerged(env.With(w.matcher), w.parsed.payloadHints, ProcessJobs(env, START, init).live, w.parsed.packetEvents,
                  Stays(env, init))
  }

  /** What a packet is counted with: its share, if it is applied to a session. */
  function Counted(env: Env, hints: map<FlowKey, string>, st: State, evt: PacketEvent): Totals {
    if Target(env, hints, st, evt) != "" then Share(evt) else ZERO
  }

  function CountedIn(env: Env, hints: map<FlowKey, string>, st: State, evts: seq<PacketEvent>): Totals {
    if evts == [] then ZERO
    else
      var init := evts[..|evts| - 1];
      CountedIn(env, hints, st, init).Plus(Counted(env, hints, Merge(env, hints, st, init), evts[|evts| - 1]))
  }

  /** What all packets that are applied to a session come to, over some jobs. */
  ghost function AllCounted(env: Env, jobs: seq<Job>): Totals {
    if jobs == [] then ZERO
    else
      var init, w := jobs[..|jobs| - 1], jobs[|jobs| - 1];
      AllCounted(env, init).Plus(
        CountedIn(env.With(w.matcher), w.parsed.payloadHints, ProcessJobs(env, START, init).live,
                  w.parsed.packetEvents))
  }

  // ---- lives and rows -------------------------------------------------------

  function Sum(stays: seq<Stay>): Totals {
    if stays == [] then ZERO else Sum(stays[..|stays| - 1]).Plus(stays[|stays| - 1].totals)
  }

  /** For every key the totals of its latest life. */
  function Latest(stays: seq<Stay>): map<string, Totals> {
    if stays == [] then map[] else Latest(stays[..|stays| - 1])[stays[|stays| - 1].key := stays[|stays| - 1].totals]
  }

  /** The totals of the lives whose row a later life of the same key has taken over. */
  function Lost(stays: seq<Stay>): Totals {
    if stays == [] then ZERO
    else
      var init, x := stays[..|stays| - 1], stays[|stays| - 1];
      Lost(init).Plus(if x.key in Latest(init) then Latest(init)[x.key] else ZERO)
  }

  function KeysOfStays(stays: seq<Stay>): seq<string> {
    seq(|stays|, i requires 0 <= i < |stays| => stays[i].key)
  }

  /** Every life holds a packet. */
  predicate Lived(stays: seq<Stay>) {
    forall x <- stays :: x.totals.packets >= 1
  }

  /** What memory and the closed sessions show is the latest life of each key. */
  ghost predicate Matches(live: map<string, SessionView>, expired: map<string, SessionView>, stays: seq<Stay>) {
    && Lived(stays) && Latest(stays).Keys == live.Keys + expired.Keys
    && (forall k <- live :: Latest(stays)[k] == SessionTotals(live[k]))
    && (forall k <- expired | k !in live :: Latest(stays)[k] == SessionTotals(expired[k]))
  }

  /** One more life at the end. */
  lemma {:induction false} Snoc(stays: seq<Stay>, x: Stay)
    ensures Latest(stays + [x]) == Latest(stays)[x.key := x.totals]
    ensures Sum(stays + [x]) == Sum(stays).Plus(x.totals)
    ensures KeysOfStays(stays + [x]) == KeysOfStays(stays) + [x.key]
    ensures Lived(stays + [x]) <==> Lived(stays) && x.totals.packets >= 1
  {
    assert (stays + [x])[..|stays|] == stays;
    assert x in stays + [x] && forall y <- stays :: y in stays + [x];
    assert forall y <- stays + [x] :: y in stays || y == x;
  }

  lemma {:induction false} Extended(stays: seq<Stay>, key: string, x: Totals)
    requires key in Latest(stays)
    ensures var stays' := Extend(stays, key, x);
      && Latest(stays') == Latest(stays)[key := Latest(stays)[key].Plus(x)]
      && Sum(stays') == Sum(stays).Plus(x)
      && KeysOfStays(stays') == KeysOfStays(stays)
      && (Lived(stays) && x.packets >= 0 ==> Lived(stays'))
  {
    hide Latest, Sum, KeysOfStays, Lived, Totals.Plus;
    NoneLatest();
    assert stays != [];
    var init, y := stays[..|stays| - 1], stays[|stays| - 1];
    assert stays == init + [y];
    Snoc(init, y);
    if y.key == key {
      Snoc(init, y.(totals := y.totals.Plus(x)));
      PlusAssociates(Sum(init), y.totals, x);
      PlusPackets(y.totals, x);
    } else {
      Extended(init, key, x);
      Snoc(Extend(init, key, x), y);
      PlusSwaps(Sum(init), x, y.totals);
    }
  }

  lemma {:induction false} NoneLatest()
    ensures Latest([]) == map[]
  {
  }

  lemma PlusSwaps(a: Totals, b: Totals, c: Totals)
    ensures a.Plus(b).Plus(c) == a.Plus(c).Plus(b)
  {
  }

  lemma SharePackets(evt: PacketEvent)
    ensures Share(evt).packets == 1
  {
  }

  lemma TouchTotals(s: SessionView, evt: PacketEvent)
    ensures SessionTotals(Touch(s, evt)) == SessionTotals(s).Plus(Share(evt))
  {
  }

  lemma {:induction false} RegisterMatches(env: Env, hints: map<FlowKey, string>, st: State,
                                           expired: map<string, SessionView>,
                                           evt: PacketEvent, stays: seq<Stay>)
    requires PlainEnv(env) && PlainPacket(evt) && Registers(env, hints, st, evt) && Matches(st.sessions, expired, stays)
    ensures Matches(Step(env, hints, st, evt).sessions, expired, StaysNext(env, hints, st, evt, stays))
    ensures Target(env, hints, st, evt) != ""
  {
    hide LookupHint, SessionKeyText, Touch, Share, Latest, Lived, Step, Target, Totals.Plus, SessionTotals;
    var key := NewKey(env, evt, LookupHint(env, hints, evt));
    var s := NewSession(env, evt, LookupHint(env, hints, evt));
    NewlyRegistered(env, hints, st, evt);
    FirstTotals(env, evt, LookupHint(env, hints, evt));
    SharePackets(evt);
    Snoc(stays, Stay(key, Share(evt)));
  }

  lemma FirstTotals(env: Env, evt: PacketEvent, hint: Hint)
    ensures SessionTotals(Touch(NewSession(env, evt, hint), evt)) == Share(evt)
  {
    hide Touch, Share, SessionKeyText;
    TouchTotals(NewSession(env, evt, hint), evt);
    PlusZero(Share(evt));
  }

  lemma {:induction false} TouchMatches(env: Env, hints: map<FlowKey, string>, st: State,
                                        expired: map<string, SessionView>,
                                        evt: PacketEvent, stays: seq<Stay>)
    requires !Registers(env, hints, st, evt) && Target(env, hints, st, evt) != ""
    requires Matches(st.sessions, expired, stays)
    ensures Target(env, hints, st, evt) in Latest(stays)
    ensures Matches(Step(env, hints, st, evt).sessions, expired, Extend(stays, Target(env, hints, st, evt), Share(evt)))
  {
    hide Touch, Share, Extend, Latest, Lived, Totals.Plus, Find, Registers;
    var key := Target(env, hints, st, evt);
    TouchTotals(st.sessions[key], evt);
    SharePackets(evt);
    Extended(stays, key, Share(evt));
  }

  lemma {:induction false} StepMatches(env: Env, hints: map<FlowKey, string>, st: State,
                                       expired: map<string, SessionView>,
                                       evt: PacketEvent, stays: seq<Stay>)
    requires PlainEnv(env) && PlainPacket(evt) && Matches(st.sessions, expired, stays)
    ensures Matches(Step(env, hints, st, evt).sessions, expired, StaysNext(env, hints, st, evt, stays))
    ensures Sum(StaysNext(env, hints, st, evt, stays)) == Sum(stays).Plus(Counted(env, hints, st, evt))
    ensures KeysOfStays(StaysNext(env, hints, st, evt, stays)) == KeysOfStays(stays) + RegisteredBy(env, hints, st, evt)
  {
    hide LookupHint, SessionKeyText, Share, Totals.Plus, Registers, Target, Step, Extend, Latest, Lived,
         Matches, Sum, KeysOfStays;
    if Registers(env, hints, st, evt) {
      RegisterMatches(env, hints, st, expired, evt, stays);
      Snoc(stays, Stay(NewKey(env, evt, LookupHint(env, hints, evt)), Share(evt)));
    } else {
      assert KeysOfStays(stays) + [] == KeysOfStays(stays);
      if Target(env, hints, st, evt) == "" {
        PlusZero(Sum(stays));
        NotApplied(env, hints, st, evt);
      } else {
        TouchMatches(env, hints, st, expired, evt, stays);
        Extended(stays, Target(env, hints, st, evt), Share(evt));
      }
    }
  }

  lemma NotApplied(env: Env, hints: map<FlowKey, string>, st: State, evt: PacketEvent)
    requires !Registers(env, hints, st, evt) && Target(env, hints, st, evt) == ""
    ensures Step(env, hints, st, evt) == st
  {
  }

  lemma {:induction false} MergeMatches(env: Env, hints: map<FlowKey, string>, st: State,
                                        expired: map<string, SessionView>,
                                        evts: seq<PacketEvent>, stays: seq<Stay>)
    requires PlainEnv(env) && (forall p <- evts :: PlainPacket(p)) && Matches(st.sessions, expired, stays)
    ensures Matches(Merge(env, hints, st, evts).sessions, expired, StaysMerged(env, hints, st, evts, stays))
    ensures Sum(StaysMerged(env, hints, st, evts, stays)) == Sum(stays).Plus(CountedIn(env, hints, st, evts))
    ensures KeysOfStays(StaysMerged(env, hints, st, evts, stays))
       == KeysOfStays(stays) + Registered(env, hints, st, evts)
  {
    hide Step, StaysNext, Counted, RegisteredBy, Totals.Plus, Sum, KeysOfStays, Matches;
    if evts == [] {
      PlusZero(Sum(stays));
      assert KeysOfStays(stays) + [] == KeysOfStays(stays);
    } else {
      var init, p := evts[..|evts| - 1], evts[|evts| - 1];
      assert p in evts && forall q <- init :: q in evts;
      var mid, before := Merge(env, hints, st, init), StaysMerged(env, hints, st, init, stays);
      MergeMatches(env, hints, st, expired, init, stays);
      StepMatches(env, hints, mid, expired, p, before);
      PlusAssociates(Sum(stays), CountedIn(env, hints, st, init), Counted(env, hints, mid, p));
      assert KeysOfStays(stays) + (Registered(env, hints, st, init) + RegisteredBy(env, hints, mid, p))
          == (KeysOfStays(stays) + Registered(env, hints, st, init)) + RegisteredBy(env, hints, mid, p);
    }
  }

  lemma SweepMatches(env: Env, st: State, expired: map<string, SessionView>, epoch: real, stays: seq<Stay>)
    requires Matches(st.sessions, expired, stays)
    ensures Matches(Sweep(env, st, epoch).sessions, expired + Expired(env, st, epoch), stays)
  {
    hide Idle, Latest, Lived;
    var live', expired' := Sweep(env, st, epoch).sessions, expired + Expired(env, st, epoch);
    assert live'.Keys + expired'.Keys == st.sessions.Keys + expired.Keys;
  }

  /** After any jobs, memory and the closed sessions show the latest lives, and all lives add up to what was counted. */
  lemma {:induction false} JobsMatch(env: Env, jobs: seq<Job>)
    requires PlainEnv(env) && forall i | 0 <= i < |jobs| :: forall p <- jobs[i].parsed.packetEvents :: PlainPacket(p)
    ensures var o := ProcessJobs(env, START, jobs); Matches(o.live.sessions, o.expired, Stays(env, jobs))
    ensures Sum(Stays(env, jobs)) == AllCounted(env, jobs)
    ensures KeysOfStays(Stays(env, jobs)) == RunKeys(env, [], Ops(jobs))
  {
    hide Merge, Sweep, Expired, Matches, StaysMerged, CountedIn, Registered, RunKeys, Ops, Run, Sum, KeysOfStays;
    if jobs == [] {
      NoJobsMatch(env);
    } else {
      var init, w := jobs[..|jobs| - 1], jobs[|jobs| - 1];
      assert forall i | 0 <= i < |init| :: init[i] == jobs[i];
      var o := ProcessJobs(env, START, init);
      JobsMatch(env, init);
      MergeMatches(env.With(w.matcher), w.parsed.payloadHints, o.live, o.expired, w.parsed.packetEvents,
                   Stays(env, init));
      SweepMatches(env, MergeJob(env, o.live, w), o.expired, w.SweepEpoch(), Stays(env, jobs));
      OneMoreJob(env, jobs);
      RunsJobs(env, init);
    }
  }

  lemma {:induction false} NoJobsMatch(env: Env)
    ensures Matches(EMPTY.sessions, map[], []) && Sum([]) == ZERO && KeysOfStays([]) == RunKeys(env, [], Ops([]))
  {
  }

  // ---- sums over a map ------------------------------------------------------

  ghost function Pick<T>(m: map<string, T>): string
    requires m != map[]
  {
    var k :| k in m;
    k
  }

  ghost function SumMap(m: map<string, Totals>): Totals
    decreases |m|
  {
    if m == map[] then ZERO else
      assert Pick(m) in m;
      m[Pick(m)].Plus(SumMap(m - {Pick(m)}))
  }

  lemma PlusCommutes(a: Totals, b: Totals)
    ensures a.Plus(b) == b.Plus(a)
  {
  }

  lemma {:induction false} SumRemove(m: map<string, Totals>, k: string)
    requires k in m
    ensures SumMap(m) == m[k].Plus(SumMap(m - {k}))
    decreases |m|
  {
    hide Totals.Plus;
    var k0 := Pick(m);
    if k0 != k {
      assert |m - {k0}| < |m| && |m - {k}| < |m|;
      SumRemove(m - {k0}, k);
      SumRemove(m - {k}, k0);
      assert m - {k0} - {k} == m - {k} - {k0};
      var rest := SumMap(m - {k0} - {k});
      PlusAssociates(m[k0], m[k], rest);
      PlusAssociates(m[k], m[k0], rest);
      PlusCommutes(m[k0], m[k]);
    }
  }

  /** Giving a key a new value takes its old one out of the sum. */
  lemma SumUpdate(m: map<string, Totals>, k: string, x: Totals)
    ensures SumMap(m[k := x]).Plus(if k in m then m[k] else ZERO) == SumMap(m).Plus(x)
  {
    SumRemove(m[k := x], k);
    assert m[k := x] - {k} == m - {k};
    if k in m {
      SumRemove(m, k);
    } else {
      assert m - {k} == m;
    }
  }

  /** All lives are the latest ones and the lost ones. */
  lemma {:induction false} LatestAndLost(stays: seq<Stay>)
    ensures Sum(stays) == SumMap(Latest(stays)).Plus(Lost(stays))
  {
    if stays != [] {
      hide SumMap;
      var init, x := stays[..|stays| - 1], stays[|stays| - 1];
      LatestAndLost(init);
      SumUpdate(Latest(init), x.key, x.totals);
    }
  }

  lemma {:induction false} LatestKeys(stays: seq<Stay>)
    requires Lived(stays)
    ensures forall k :: k in Latest(stays) <==> k in KeysOfStays(stays)
    ensures forall k <- Latest(stays) :: Latest(stays)[k].packets >= 1
  {
    if stays == [] {
      NoneLatest();
    } else {
      hide Lived, Latest, KeysOfStays;
      var init, x := stays[..|stays| - 1], stays[|stays| - 1];
      LivedInit(stays);
      LatestKeys(init);
      assert stays == init + [x];
      Snoc(init, x);
    }
  }

  /** Nothing is lost exactly when no key has two lives. */
  lemma {:induction false} LostIffTwice(stays: seq<Stay>)
    requires Lived(stays)
    ensures Lost(stays).packets >= 0 && (Lost(stays).packets == 0 <==> Distinct(KeysOfStays(stays)))
    ensures Distinct(KeysOfStays(stays)) ==> Lost(stays) == ZERO
  {
    hide Lived, Latest, KeysOfStays, Totals.Plus, Distinct;
    if stays == [] {
      assert Distinct(KeysOfStays([])) by {
        NoKeys();
      }
    } else {
      var init, x := stays[..|stays| - 1], stays[|stays| - 1];
      LivedInit(stays);
      LostIffTwice(init);
      LatestKeys(init);
      assert stays == init + [x];
      Snoc(init, x);
      DistinctSnoc(KeysOfStays(init), x.key);
      var part := if x.key in Latest(init) then Latest(init)[x.key] else ZERO;
      PlusPackets(Lost(init), part);
      PlusZero(Lost(init));
    }
  }

  lemma {:induction false} NoKeys()
    ensures Distinct(KeysOfStays([]))
  {
  }

  lemma LivedInit(stays: seq<Stay>)
    requires Lived(stays) && stays != []
    ensures Lived(stays[..|stays| - 1]) && stays[|stays| - 1].totals.packets >= 1
  {
    assert stays[|stays| - 1] in stays;
    assert forall y <- stays[..|stays| - 1] :: y in stays;
  }

  lemma DistinctSnoc(keys: seq<string>, k: string)
    ensures Distinct(keys + [k]) <==> Distinct(keys) && k !in keys
  {
    var all := keys + [k];
    if k in keys {
      var i :| 0 <= i < |keys| && keys[i] == k;
      assert all[i] == all[|keys|];
    }
    if Distinct(all) {
      assert forall i | 0 <= i < |keys| :: all[i] == keys[i];
    }
  }

  // ---- the table ------------------------------------------------------------

  /** What the rows of the table add up to. */
  ghost function SumTable(t: Table): Totals
    decreases |t|
  {
    if t == map[] then ZERO else
      assert Pick(t) in t;
      RowTotals(t[Pick(t)]).Plus(SumTable(t - {Pick(t)}))
  }

  lemma {:induction false} SameSum(t: Table, m: map<string, Totals>)
    requires t.Keys == m.Keys && forall k <- t :: RowTotals(t[k]) == m[k]
    ensures SumTable(t) == SumMap(m)
    decreases |t|
  {
    if t != map[] {
      hide RowTotals, Totals.Plus;
      var k := Pick(t);
      SameSum(t - {k}, m - {k});
      SumRemove(m, k);
    } else {
      assert m == map[];
    }
  }

  lemma {:induction false} TableIsLatest(t: Table, o: Outcome, stays: seq<Stay>)
    requires WrittenThrough(t, o, {}, {}) && Matches(o.live.sessions, o.expired, stays)
    ensures t.Keys == Latest(stays).Keys && forall k <- t :: RowTotals(t[k]) == Latest(stays)[k]
  {
    hide Latest, Lived;
    assert t.Keys == o.live.sessions.Keys + o.expired.Keys;
  }

  /**
   A table written from empty, by jobs that were all accepted: its rows and the
   lives they no longer show add up to everything counted, and the rows alone do
   exactly when no session key was registered twice.
   */
  lemma {:induction false} TableAddsUp(env: Env, jobs: seq<Job>, t: Table)
    requires PlainEnv(env) && forall i | 0 <= i < |jobs| :: forall p <- jobs[i].parsed.packetEvents :: PlainPacket(p)
    requires WrittenThrough(t, ProcessJobs(env, START, jobs), {}, {})
    ensures SumTable(t).Plus(Lost(Stays(env, jobs))) == AllCounted(env, jobs)
    ensures SumTable(t) == AllCounted(env, jobs) <==> Distinct(RunKeys(env, [], Ops(jobs)))
  {
    hide WrittenThrough, Matches, ProcessJobs, Stays, AllCounted, RunKeys, Ops, SumTable, SumMap, Latest,
         Lost, Sum, Distinct, KeysOfStays, Lived, Totals.Plus;
    var stays := Stays(env, jobs);
    JobsMatch(env, jobs);
    MatchesLived(env, jobs);
    TableIsLatest(t, ProcessJobs(env, START, jobs), stays);
    SameSum(t, Latest(stays));
    LatestAndLost(stays);
    LostIffTwice(stays);
    PlusPackets(SumTable(t), Lost(stays));
    PlusZero(SumTable(t));
  }

  lemma {:induction false} MatchesLived(env: Env, jobs: seq<Job>)
    requires var o := ProcessJobs(env, START, jobs); Matches(o.live.sessions, o.expired, Stays(env, jobs))
    ensures Lived(Stays(env, jobs))
  {
  }

  // ---- one row --------------------------------------------------------------

  /** What all lives of one key come to. */
  function SumFor(stays: seq<Stay>, key: string): Totals {
    if stays == [] then ZERO
    else
      var init, x := stays[..|stays| - 1], stays[|stays| - 1];
      SumFor(init, key).Plus(if x.key == key then x.totals else ZERO)
  }

  function LivesFor(stays: seq<Stay>, key: string): nat {
    if stays == [] then 0
    else LivesFor(stays[..|stays| - 1], key) + if stays[|stays| - 1].key == key then 1 else 0
  }

  lemma {:induction false} OneLife(stays: seq<Stay>, key: string)
    requires Lived(stays)
    ensures LivesFor(stays, key) >= 1 <==> key in Latest(stays)
    ensures SumFor(stays, key).packets >= LivesFor(stays, key)
    ensures LivesFor(stays, key) == 0 ==> SumFor(stays, key) == ZERO
    ensures LivesFor(stays, key) >= 1 ==>
      (Latest(stays)[key] == SumFor(stays, key) <==> LivesFor(stays, key) == 1)
  {
    hide Lived, Latest, Totals.Plus;
    if stays == [] {
      NoneLatest();
    } else {
      var init, x := stays[..|stays| - 1], stays[|stays| - 1];
      LivedInit(stays);
      OneLife(init, key);
      assert stays == init + [x];
      Snoc(init, x);
      var part := if x.key == key then x.totals else ZERO;
      PlusPackets(SumFor(init, key), part);
      PlusZero(SumFor(init, key));
      PlusZero(x.totals);
    }
  }

  /** A row shows all packets ever counted under its key exactly when the key was registered once. */
  lemma {:induction false} RowShowsAll(env: Env, jobs: seq<Job>, t: Table, key: string)
    requires PlainEnv(env) && forall i | 0 <= i < |jobs| :: forall p <- jobs[i].parsed.packetEvents :: PlainPacket(p)
    requires WrittenThrough(t, ProcessJobs(env, START, jobs), {}, {}) && key in t
    ensures RowTotals(t[key]) == SumFor(Stays(env, jobs), key) <==> LivesFor(Stays(env, jobs), key) == 1
  {
    hide WrittenThrough, Matches, ProcessJobs, Stays, Latest, SumFor, LivesFor, Lived;
    JobsMatch(env, jobs);
    MatchesLived(env, jobs);
    TableIsLatest(t, ProcessJobs(env, START, jobs), Stays(env, jobs));
    OneLife(Stays(env, jobs), key);
  }
}
