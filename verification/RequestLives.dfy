/**
 Request keys over a whole run.  A session key may live more than once: a swept
 session can be registered again in the same second.  Two requests of a run
 carry one key exactly when two lives of one session key number a request
 alike, and a late window can make that happen.
 */
module RequestLives {
  import opened Model
  import opened Keys
  import opened Lists
  import opened Tracker
  import opened Indexes
  import opened RequestKeys

  // ---- what a run emits ------------------------------------------------------

  /** The session keys a merge registers, in order. */
  function Registered(env: Env, hints: map<FlowKey, string>, st: State, evts: seq<PacketEvent>): seq<string> {
    if evts == [] then []
    else
      var init, e := evts[..|evts| - 1], evts[|evts| - 1];
      Registered(env, hints, st, init) + RegisteredBy(env, hints, Merge(env, hints, st, init), e)
  }

  function RegisteredBy(env: Env, hints: map<FlowKey, string>, st: State, evt: PacketEvent): seq<string> {
    if Registers(env, hints, st, evt) then [NewKey(env, evt, LookupHint(env, hints, evt))] else []
  }

  function KeysOf(rows: seq<SessionView>): seq<string> {
    seq(|rows|, i requires 0 <= i < |rows| => rows[i].id.sessionKey)
  }

  /** Every session key the run has used: the restored ones, then the registered ones. */
  function RunKeys(env: Env, rows: seq<SessionView>, ops: seq<Op>): seq<string> {
    if ops == [] then KeysOf(rows)
    else
      var init := ops[..|ops| - 1];
      RunKeys(env, rows, init) + match ops[|ops| - 1]
        case MergeOp(matcher, hints, evts) =>
          Registered(env.With(matcher), hints, Run(env, Restore(EMPTY, rows), init), evts)
        case SweepOp(_) => []
  }

  /** Every request the run has emitted. */
  function RunEmitted(env: Env, rows: seq<SessionView>, ops: seq<Op>): seq<Req> {
    if ops == [] then []
    else
      var init := ops[..|ops| - 1];
      RunEmitted(env, rows, init) + match ops[|ops| - 1]
        case MergeOp(matcher, hints, evts) =>
          Emitted(env.With(matcher), hints, Run(env, Restore(EMPTY, rows), init), evts)
        case SweepOp(_) => []
  }

  /**
   One life of a session key: the run of a session from its registration, or
   its restore, to its sweep.  Its requests are numbered `first` + 1 to `last`.
   */
  datatype Life = Life(key: string, first: int, last: int) {
    predicate Opens() {
      first < last
    }

    predicate Numbers(r: Req) {
      r.session == key && first < r.number <= last
    }
  }

  /** Two lives of one key number some request alike. */
  predicate Overlap(a: Life, b: Life) {
    a.key == b.key && a.Opens() && b.Opens() && a.first < b.last && b.first < a.last
  }

  /** The latest life of a key has one more request. */
  function Extend(lives: seq<Life>, key: string): seq<Life> {
    if lives == [] then []
    else
      var init, x := lives[..|lives| - 1], lives[|lives| - 1];
      if x.key == key then init + [x.(last := x.last + 1)] else Extend(init, key) + [x]
  }

  function LivesNext(env: Env, hints: map<FlowKey, string>, st: State, evt: PacketEvent, lives: seq<Life>): seq<Life> {
    var born := if Registers(env, hints, st, evt)
      then lives + [Life(NewKey(env, evt, LookupHint(env, hints, evt)), 0, 0)] else lives;
    var o := Opened(env, hints, st, evt);
    if o == [] then born else Extend(born, o[0].session)
  }

  function LivesMerged(env: Env, hints: map<FlowKey, string>, st: State, evts: seq<PacketEvent>,
                       lives: seq<Life>): seq<Life> {
    if evts == [] then lives
    else
      var init, e := evts[..|evts| - 1], evts[|evts| - 1];
      LivesNext(env, hints, Merge(env, hints, st, init), e, LivesMerged(env, hints, st, init, lives))
  }

  function RestoredLives(rows: seq<SessionView>): seq<Life> {
    seq(|rows|, i requires 0 <= i < |rows| => Life(rows[i].id.sessionKey, rows[i].requestCount, rows[i].requestCount))
  }

  /** The lives of a run: the restored sessions, then the registrations, in order. */
  function Lives(env: Env, rows: seq<SessionView>, ops: seq<Op>): seq<Life> {
    if ops == [] then RestoredLives(rows)
    else
      var init := ops[..|ops| - 1];
      match ops[|ops| - 1]
      case MergeOp(matcher, hints, evts) =>
        LivesMerged(env.With(matcher), hints, Run(env, Restore(EMPTY, rows), init), evts, Lives(env, rows, init))
      case SweepOp(_) => Lives(env, rows, init)
  }

  // ---- lives and requests ---------------------------------------------------

  /** The lives that number a request. */
  function Numbering(lives: seq<Life>, r: Req): nat {
    if lives == [] then 0
    else Numbering(lives[..|lives| - 1], r) + if lives[|lives| - 1].Numbers(r) then 1 else 0
  }

  function Times(reqs: seq<Req>, r: Req): nat {
    if reqs == [] then 0
    else Times(reqs[..|reqs| - 1], r) + if reqs[|reqs| - 1] == r then 1 else 0
  }

  /** The last request number of the latest life of a key. */
  function LastOf(lives: seq<Life>, key: string): Option<int> {
    if lives == [] then None
    else if lives[|lives| - 1].key == key then Some(lives[|lives| - 1].last)
    else LastOf(lives[..|lives| - 1], key)
  }

  predicate Ordered(lives: seq<Life>) {
    forall x <- lives :: x.first <= x.last
  }

  /** A live session is the latest life of its key. */
  predicate Alive(st: State, lives: seq<Life>) {
    forall k <- st.sessions :: LastOf(lives, k) == Some(st.sessions[k].requestCount)
  }

  ghost predicate Told(lives: seq<Life>, reqs: seq<Req>) {
    forall r: Req :: Times(reqs, r) == Numbering(lives, r)
  }

  ghost predicate Tracked(st: State, lives: seq<Life>, reqs: seq<Req>) {
    Ordered(lives) && Alive(st, lives) && Told(lives, reqs)
  }

  lemma {:induction false} Extended(lives: seq<Life>, key: string, r: Req)
    requires Ordered(lives) && LastOf(lives, key).Some?
    ensures Numbering(Extend(lives, key), r)
       == Numbering(lives, r) + (if r == Req(key, LastOf(lives, key).value + 1) then 1 else 0)
  {
    hide Ordered, Life.Numbers;
    var init, x := lives[..|lives| - 1], lives[|lives| - 1];
    OrderedInit(lives);
    var lives' := Extend(lives, key);
    assert lives'[..|lives'| - 1] == if x.key == key then init else Extend(init, key);
    if x.key == key {
      OneMoreNumber(x, r);
    } else {
      Extended(init, key, r);
    }
  }

  lemma OrderedInit(lives: seq<Life>)
    requires Ordered(lives) && lives != []
    ensures Ordered(lives[..|lives| - 1]) && lives[|lives| - 1].first <= lives[|lives| - 1].last
  {
    assert lives[|lives| - 1] in lives;
    assert forall y <- lives[..|lives| - 1] :: y in lives;
  }

  lemma OneMoreNumber(x: Life, r: Req)
    requires x.first <= x.last
    ensures x.(last := x.last + 1).Numbers(r) <==> x.Numbers(r) || r == Req(x.key, x.last + 1)
    ensures r == Req(x.key, x.last + 1) ==> !x.Numbers(r)
  {
  }

  lemma {:induction false} ExtendKeepsOrdered(lives: seq<Life>, key: string)
    requires Ordered(lives)
    ensures Ordered(Extend(lives, key))
    ensures LastOf(lives, key).Some? ==> LastOf(Extend(lives, key), key) == Some(LastOf(lives, key).value + 1)
  {
    if lives != [] {
      OrderedInit(lives);
      var init, x := lives[..|lives| - 1], lives[|lives| - 1];
      var lives' := Extend(lives, key);
      assert lives'[..|lives'| - 1] == if x.key == key then init else Extend(init, key);
      if x.key != key {
        ExtendKeepsOrdered(init, key);
      }
    }
  }

  lemma {:induction false} ExtendKeepsLast(lives: seq<Life>, key: string, other: string)
    requires other != key
    ensures LastOf(Extend(lives, key), other) == LastOf(lives, other)
  {
    if lives != [] {
      var init, x := lives[..|lives| - 1], lives[|lives| - 1];
      var lives' := Extend(lives, key);
      assert lives'[..|lives'| - 1] == if x.key == key then init else Extend(init, key);
      if x.key != key {
        ExtendKeepsLast(init, key, other);
      }
    }
  }

  lemma BornTracked(env: Env, hints: map<FlowKey, string>, st: State, evt: PacketEvent, lives: seq<Life>,
                    reqs: seq<Req>)
    requires Tracked(st, lives, reqs) && Registers(env, hints, st, evt)
    ensures Tracked(FindOrRegister(env, hints, st, evt),
                    lives + [Life(NewKey(env, evt, LookupHint(env, hints, evt)), 0, 0)], reqs)
  {
    hide LookupHint, SessionKeyText, Find;
    var x := Life(NewKey(env, evt, LookupHint(env, hints, evt)), 0, 0);
    var lives' := lives + [x];
    assert lives'[..|lives|] == lives;
    forall r: Req ensures Times(reqs, r) == Numbering(lives', r) {
      assert !x.Numbers(r);
    }
  }

  lemma OpenedTracked(st: State, lives: seq<Life>, reqs: seq<Req>, key: string, s: SessionView)
    requires Tracked(st, lives, reqs) && key in st.sessions && s.requestCount == st.sessions[key].requestCount + 1
    ensures Tracked(st.(sessions := st.sessions[key := s]), Extend(lives, key), reqs + [Req(key, s.requestCount)])
  {
    hide Extend, LastOf, Numbering, Ordered;
    var st', r' := st.(sessions := st.sessions[key := s]), Req(key, s.requestCount);
    assert (reqs + [r'])[..|reqs|] == reqs;
    ExtendKeepsOrdered(lives, key);
    forall r: Req ensures Times(reqs + [r'], r) == Numbering(Extend(lives, key), r) {
      Extended(lives, key, r);
    }
    forall k <- st'.sessions ensures LastOf(Extend(lives, key), k) == Some(st'.sessions[k].requestCount) {
      if k != key {
        ExtendKeepsLast(lives, key, k);
      }
    }
  }

  lemma StepTracked(env: Env, hints: map<FlowKey, string>, st: State, evt: PacketEvent, lives: seq<Life>,
                    reqs: seq<Req>)
    requires Tracked(st, lives, reqs)
    ensures Tracked(Step(env, hints, st, evt), LivesNext(env, hints, st, evt, lives),
                    reqs + Opened(env, hints, st, evt))
  {
    hide LookupHint, SessionKeyText, Target, FindOrRegister, Registers, LogsAfter, Extend, LastOf, Told, Ordered;
    var st' := FindOrRegister(env, hints, st, evt);
    var born := if Registers(env, hints, st, evt)
      then lives + [Life(NewKey(env, evt, LookupHint(env, hints, evt)), 0, 0)] else lives;
    assert Tracked(st', born, reqs) by {
      if Registers(env, hints, st, evt) {
        BornTracked(env, hints, st, evt, lives, reqs);
      } else {
        NotRegistered(env, hints, st, evt);
      }
    }
    var key := Target(env, hints, st, evt);
    if Opened(env, hints, st, evt) != [] {
      OpenedTracked(st', born, reqs, key, Touch(st'.sessions[key], evt));
    } else {
      assert reqs + [] == reqs;
    }
  }

  lemma NotRegistered(env: Env, hints: map<FlowKey, string>, st: State, evt: PacketEvent)
    requires !Registers(env, hints, st, evt)
    ensures FindOrRegister(env, hints, st, evt) == st
  {
  }

  lemma {:induction false} MergeTracked(env: Env, hints: map<FlowKey, string>, st: State, evts: seq<PacketEvent>,
                                        lives: seq<Life>, reqs: seq<Req>)
    requires Tracked(st, lives, reqs)
    ensures Tracked(Merge(env, hints, st, evts), LivesMerged(env, hints, st, evts, lives),
                    reqs + Emitted(env, hints, st, evts))
  {
    hide Step, Opened, LivesNext, Tracked, LookupHint;
    if evts == [] {
      assert reqs + [] == reqs;
    } else {
      var init, e := evts[..|evts| - 1], evts[|evts| - 1];
      var mid := Merge(env, hints, st, init);
      MergeTracked(env, hints, st, init, lives, reqs);
      StepTracked(env, hints, mid, e, LivesMerged(env, hints, st, init, lives), reqs + Emitted(env, hints, st, init));
      assert reqs + (Emitted(env, hints, st, init) + Opened(env, hints, mid, e))
          == (reqs + Emitted(env, hints, st, init)) + Opened(env, hints, mid, e);
    }
  }

  lemma {:induction false} RestoreTracked(rows: seq<SessionView>)
    ensures Tracked(Restore(EMPTY, rows), RestoredLives(rows), [])
  {
    if rows != [] {
      var n := |rows| - 1;
      RestoreTracked(rows[..n]);
      assert RestoredLives(rows)[..n] == RestoredLives(rows[..n]);
      assert !RestoredLives(rows)[n].Opens();
    }
  }

  lemma {:induction false} RunTracked(env: Env, rows: seq<SessionView>, ops: seq<Op>)
    ensures Tracked(Run(env, Restore(EMPTY, rows), ops), Lives(env, rows, ops), RunEmitted(env, rows, ops))
  {
    if ops == [] {
      RestoreTracked(rows);
    } else {
      hide Merge, Idle, LookupHint, Told, Ordered, LastOf, LivesMerged;
      var init, op := ops[..|ops| - 1], ops[|ops| - 1];
      RunTracked(env, rows, init);
      match op
      case MergeOp(matcher, hints, evts) =>
        MergeTracked(env.With(matcher), hints, Run(env, Restore(EMPTY, rows), init), evts, Lives(env, rows, init),
                     RunEmitted(env, rows, init));
      case SweepOp(epoch) =>
        assert RunEmitted(env, rows, ops) == RunEmitted(env, rows, init);
    }
  }

  // ---- when request keys repeat ---------------------------------------------

  lemma {:induction false} TimesUpTo(reqs: seq<Req>, r: Req, i: nat)
    requires i < |reqs| && reqs[i] == r
    ensures Times(reqs, r) >= 1 + Times(reqs[..i], r)
  {
    var n := |reqs| - 1;
    if i < n {
      TimesUpTo(reqs[..n], r, i);
      assert reqs[..n][..i] == reqs[..i];
    }
  }

  lemma {:induction false} FoundAmong(reqs: seq<Req>, r: Req) returns (i: nat)
    requires Times(reqs, r) >= 1
    ensures i < |reqs| && reqs[i] == r && Times(reqs, r) == 1 + Times(reqs[..i], r)
  {
    i := |reqs| - 1;
    if reqs[i] != r {
      i := FoundAmong(reqs[..i], r);
      assert reqs[..|reqs| - 1][..i] == reqs[..i];
    }
  }

  lemma {:induction false} NumberingUpTo(lives: seq<Life>, r: Req, i: nat)
    requires i < |lives| && lives[i].Numbers(r)
    ensures Numbering(lives, r) >= 1 + Numbering(lives[..i], r)
  {
    var n := |lives| - 1;
    if i < n {
      NumberingUpTo(lives[..n], r, i);
      assert lives[..n][..i] == lives[..i];
    }
  }

  lemma {:induction false} NumberedBy(lives: seq<Life>, r: Req) returns (i: nat)
    requires Numbering(lives, r) >= 1
    ensures i < |lives| && lives[i].Numbers(r) && Numbering(lives, r) == 1 + Numbering(lives[..i], r)
  {
    i := |lives| - 1;
    if !lives[i].Numbers(r) {
      i := NumberedBy(lives[..i], r);
      assert lives[..|lives| - 1][..i] == lives[..i];
    }
  }

  /** Two requests of the run carry one key. */
  predicate KeyRepeats(reqs: seq<Req>) {
    exists i, j :: 0 <= i < j < |reqs| && reqs[i].Text() == reqs[j].Text()
  }

  predicate LivesOverlap(lives: seq<Life>) {
    exists i, j :: 0 <= i < j < |lives| && Overlap(lives[i], lives[j])
  }

  lemma RepeatMeansOverlap(lives: seq<Life>, reqs: seq<Req>)
    requires Told(lives, reqs) && KeyRepeats(reqs)
    ensures LivesOverlap(lives)
  {
    hide Req.Text, Times, Numbering;
    var i, j :| 0 <= i < j < |reqs| && reqs[i].Text() == reqs[j].Text();
    var r := reqs[j];
    SameRequest(reqs[i], r);
    TimesUpTo(reqs, r, j);
    assert reqs[..j][i] == r;
    TimesUpTo(reqs[..j], r, i);
    var b := NumberedBy(lives, r);
    var a := NumberedBy(lives[..b], r);
    assert Overlap(lives[a], lives[b]);
  }

  lemma SameRequest(r: Req, r': Req)
    requires r.Text() == r'.Text()
    ensures r == r'
  {
    RequestKeyInjective(r.session, r.number, r'.session, r'.number);
  }

  lemma OverlapMeansRepeat(lives: seq<Life>, reqs: seq<Req>)
    requires Told(lives, reqs) && LivesOverlap(lives)
    ensures KeyRepeats(reqs)
  {
    hide Req.Text, Times, Numbering;
    var a, b :| 0 <= a < b < |lives| && Overlap(lives[a], lives[b]);
    var r := Req(lives[a].key, 1 + if lives[a].first < lives[b].first then lives[b].first else lives[a].first);
    NumberingUpTo(lives, r, b);
    assert lives[..b][a] == lives[a];
    NumberingUpTo(lives[..b], r, a);
    var j := FoundAmong(reqs, r);
    var i := FoundAmong(reqs[..j], r);
    assert reqs[i].Text() == reqs[j].Text();
  }

  /** Over any run, two requests carry one key exactly when two lives of one session key overlap in their numbers. */
  lemma {:induction false} KeysRepeatIff(env: Env, rows: seq<SessionView>, ops: seq<Op>)
    ensures KeyRepeats(RunEmitted(env, rows, ops)) <==> LivesOverlap(Lives(env, rows, ops))
  {
    hide KeyRepeats, LivesOverlap;
    RunTracked(env, rows, ops);
    if KeyRepeats(RunEmitted(env, rows, ops)) {
      RepeatMeansOverlap(Lives(env, rows, ops), RunEmitted(env, rows, ops));
    }
    if LivesOverlap(Lives(env, rows, ops)) {
      OverlapMeansRepeat(Lives(env, rows, ops), RunEmitted(env, rows, ops));
    }
  }

  /** One session key was registered twice, and both registrations opened a request. */
  predicate RegisteredTwice(lives: seq<Life>) {
    exists i, j :: 0 <= i < j < |lives| && lives[i].key == lives[j].key && lives[i].Opens() && lives[j].Opens()
  }

  lemma {:induction false} ExtendKeepsShape(lives: seq<Life>, key: string)
    ensures |Extend(lives, key)| == |lives|
    ensures forall i | 0 <= i < |lives| ::
      Extend(lives, key)[i].key == lives[i].key && Extend(lives, key)[i].first == lives[i].first
  {
    if lives != [] {
      ExtendKeepsShape(lives[..|lives| - 1], key);
    }
  }

  /** The lives are the keys the run has used, in order. */
  predicate LivesOf(lives: seq<Life>, keys: seq<string>) {
    |lives| == |keys| && forall i | 0 <= i < |lives| :: lives[i].key == keys[i]
  }

  predicate FromZero(lives: seq<Life>) {
    forall i | 0 <= i < |lives| :: lives[i].first == 0
  }

  lemma ExtendedLives(lives: seq<Life>, keys: seq<string>, key: string)
    requires LivesOf(lives, keys)
    ensures LivesOf(Extend(lives, key), keys)
    ensures FromZero(lives) ==> FromZero(Extend(lives, key))
  {
    ExtendKeepsShape(lives, key);
  }

  lemma NextLives(env: Env, hints: map<FlowKey, string>, st: State, evt: PacketEvent, lives: seq<Life>,
                  keys: seq<string>)
    requires LivesOf(lives, keys)
    ensures LivesOf(LivesNext(env, hints, st, evt, lives), keys + RegisteredBy(env, hints, st, evt))
    ensures FromZero(lives) ==> FromZero(LivesNext(env, hints, st, evt, lives))
  {
    hide Opened, Registers, LookupHint, SessionKeyText, LivesOf, FromZero;
    var key := NewKey(env, evt, LookupHint(env, hints, evt));
    var born := if Registers(env, hints, st, evt) then lives + [Life(key, 0, 0)] else lives;
    var keys' := keys + RegisteredBy(env, hints, st, evt);
    if Registers(env, hints, st, evt) {
      BornLife(lives, keys, key);
    } else {
      assert keys' == keys;
    }
    var o := Opened(env, hints, st, evt);
    if o != [] {
      ExtendedLives(born, keys', o[0].session);
    }
  }

  lemma BornLife(lives: seq<Life>, keys: seq<string>, key: string)
    requires LivesOf(lives, keys)
    ensures LivesOf(lives + [Life(key, 0, 0)], keys + [key])
    ensures FromZero(lives) ==> FromZero(lives + [Life(key, 0, 0)])
  {
  }

  lemma {:induction false} MergedLives(env: Env, hints: map<FlowKey, string>, st: State, evts: seq<PacketEvent>,
                                       lives: seq<Life>, keys: seq<string>)
    requires LivesOf(lives, keys)
    ensures LivesOf(LivesMerged(env, hints, st, evts, lives), keys + Registered(env, hints, st, evts))
    ensures FromZero(lives) ==> FromZero(LivesMerged(env, hints, st, evts, lives))
  {
    hide Step, LivesNext, RegisteredBy, LivesOf, FromZero;
    if evts == [] {
      assert keys + [] == keys;
    } else {
      var init, e := evts[..|evts| - 1], evts[|evts| - 1];
      var mid := Merge(env, hints, st, init);
      MergedLives(env, hints, st, init, lives, keys);
      NextLives(env, hints, mid, e, LivesMerged(env, hints, st, init, lives), keys + Registered(env, hints, st, init));
      assert keys + (Registered(env, hints, st, init) + RegisteredBy(env, hints, mid, e))
          == (keys + Registered(env, hints, st, init)) + RegisteredBy(env, hints, mid, e);
    }
  }

  lemma {:induction false} RunLives(env: Env, rows: seq<SessionView>, ops: seq<Op>)
    ensures LivesOf(Lives(env, rows, ops), RunKeys(env, rows, ops))
    ensures rows == [] ==> FromZero(Lives(env, rows, ops))
  {
    if ops != [] {
      hide LivesMerged;
      var init := ops[..|ops| - 1];
      RunLives(env, rows, init);
      match ops[|ops| - 1]
      case MergeOp(matcher, hints, evts) =>
        MergedLives(env.With(matcher), hints, Run(env, Restore(EMPTY, rows), init), evts, Lives(env, rows, init),
                    RunKeys(env, rows, init));
      case SweepOp(_) =>
        assert RunKeys(env, rows, ops) == RunKeys(env, rows, init);
    }
  }

  /**
   From the empty state: two requests carry one key exactly when a session key
   was registered twice and opened a request each time.
   */
  lemma {:induction false} RepeatsIffRegisteredTwice(env: Env, ops: seq<Op>)
    ensures KeyRepeats(RunEmitted(env, [], ops)) <==> RegisteredTwice(Lives(env, [], ops))
  {
    hide Lives, RunEmitted, KeyRepeats;
    KeysRepeatIff(env, [], ops);
    RunLives(env, [], ops);
    var lives := Lives(env, [], ops);
    assert forall i, j | 0 <= i < j < |lives| ::
      Overlap(lives[i], lives[j]) <==> lives[i].key == lives[j].key && lives[i].Opens() && lives[j].Opens();
  }

  /** Over any run in which no session key is used twice, no request key repeats. */
  lemma {:induction false} RunKeysDistinct(env: Env, rows: seq<SessionView>, ops: seq<Op>)
    requires Distinct(RunKeys(env, rows, ops))
    ensures !KeyRepeats(RunEmitted(env, rows, ops))
  {
    hide Lives, RunEmitted, KeyRepeats;
    KeysRepeatIff(env, rows, ops);
    RunLives(env, rows, ops);
  }

  /**
   A session key is registered twice when a window arrives late: the session of
   a first packet is swept, and a packet of the same connection, domain and
   second comes in afterwards.  Both open a request, and the two requests carry
   one key, which the unique column refuses.
   */
  lemma {:induction false} LateWindowRepeatsKey(env: Env, hints: map<FlowKey, string>, p: PacketEvent, q: PacketEvent,
          sweep: real)
    requires PlainEnv(env) && PlainPacket(p) && PlainPacket(q) && p.protocol.Tcp? && q.protocol.Tcp?
    requires p.dstPort == 443 && p.srcPort != 443 && p.length > 0 && q.length > 0 && q.Flow() == p.Flow()
    requires LookupHint(env, hints, p).Usable() && LookupHint(env, hints, q) == LookupHint(env, hints, p)
    requires Trunc(q.epoch) == Trunc(p.epoch) && p.epoch != 0.0
    requires sweep - p.epoch >= env.idleSeconds as real
    ensures var key := NewKey(env, p, LookupHint(env, hints, p));
      RunEmitted(env, [], [MergeOp(env.vendorOf, hints, [p]), SweepOp(sweep), MergeOp(env.vendorOf, hints, [q])])
        == [Req(key, 1), Req(key, 1)]
  {
    hide LookupHint, SessionKeyText, Merge, Emitted, Sweep;
    FirstPacket(env, hints, p);
    FirstPacket(env, hints, q);
    SweptAfterFirst(env, hints, p, sweep);
    var a, b, c := MergeOp(env.vendorOf, hints, [p]), SweepOp(sweep), MergeOp(env.vendorOf, hints, [q]);
    assert env.With(env.vendorOf) == env;
    assert [a, b, c][..2] == [a, b] && [a, b][..1] == [a] && [a][..0] == [];
    assert Run(env, EMPTY, [a]) == Merge(env, hints, EMPTY, [p]);
    assert Run(env, EMPTY, [a, b]) == EMPTY;
    assert RunEmitted(env, [], [a]) == Emitted(env, hints, EMPTY, [p]);
    assert RunEmitted(env, [], [a, b]) == RunEmitted(env, [], [a]);
  }

  lemma {:induction false} FirstPacket(env: Env, hints: map<FlowKey, string>, p: PacketEvent)
    requires PlainEnv(env) && PlainPacket(p) && p.protocol.Tcp? && LookupHint(env, hints, p).Usable()
    requires p.dstPort == 443 && p.srcPort != 443 && p.length > 0
    ensures var s := NewSession(env, p, LookupHint(env, hints, p));
      && Merge(env, hints, EMPTY, [p]) == Bind(EMPTY, s).(sessions := map[s.id.sessionKey := Touch(s, p)])
      && Emitted(env, hints, EMPTY, [p]) == [Req(s.id.sessionKey, 1)]
  {
    hide LookupHint, SessionKeyText, Touch;
    var s := NewSession(env, p, LookupHint(env, hints, p));
    NewSessionPrinted(env, p, LookupHint(env, hints, p));
    assert [p][..0] == [];
    assert Target(env, hints, EMPTY, p) == s.id.sessionKey;
    assert Bind(EMPTY, s).sessions[s.id.sessionKey := Touch(s, p)] == map[s.id.sessionKey := Touch(s, p)];
  }

  lemma {:induction false} SweptAfterFirst(env: Env, hints: map<FlowKey, string>, p: PacketEvent, sweep: real)
    requires PlainEnv(env) && PlainPacket(p) && p.protocol.Tcp? && LookupHint(env, hints, p).Usable()
    requires p.dstPort == 443 && p.srcPort != 443 && p.length > 0 && p.epoch != 0.0
    requires sweep - p.epoch >= env.idleSeconds as real
    ensures Sweep(env, Merge(env, hints, EMPTY, [p]), sweep) == EMPTY
  {
    hide LookupHint, SessionKeyText, Merge, Emitted;
    FirstPacket(env, hints, p);
  }
}
