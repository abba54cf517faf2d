/**
 Windows against one merge of the whole stream with one hint map and one
 matcher.  The two leave the same exactly when, wherever a packet consults the
 hints, its window tells it the same as the whole stream does.
 */
module WholeStream {
  import opened Model
  import opened Keys
  import opened Lists
  import opened Tracker
  import opened Indexes
  import opened Windowing

  /** A packet consults the hints only when it is of TCP, on port 443, and finds no session. */
  predicate Asks(st: State, p: PacketEvent) {
    p.protocol.Tcp? && (p.srcPort == 443 || p.dstPort == 443) && Find(st, p.Flow()) == ""
  }

  /** Two answers that make a packet do the same: they are equal, or neither is enough to register. */
  predicate SameAnswer(a: Hint, b: Hint) {
    a == b || (!a.Usable() && !b.Usable())
  }

  /** If the packet at position `j` consults the hints in the second stream, both streams tell it the same. */
  predicate AgreeAt(env: Env, xs: seq<Told>, ys: seq<Told>, j: nat)
    requires j < |xs| == |ys|
  {
    Asks(Merged(env, ys, j), ys[j].evt) ==> SameAnswer(xs[j].Hint(env), ys[j].Hint(env))
  }

  predicate Agree(env: Env, xs: seq<Told>, ys: seq<Told>, n: nat)
    requires n <= |xs| == |ys|
  {
    forall j: nat | j < n :: AgreeAt(env, xs, ys, j)
  }

  /** The whole stream, told one hint map with the configured matcher. */
  function Whole(env: Env, hints: map<FlowKey, string>, jobs: seq<Job>): seq<Told> {
    TellAll(env.vendorOf, hints, Packets(Stream(jobs)))
  }

  /** Every window agrees with those hints wherever a packet finds no session; elsewhere they may differ. */
  predicate HintsAgree(env: Env, hints: map<FlowKey, string>, jobs: seq<Job>) {
    Agree(env, Stream(jobs), Whole(env, hints, jobs), |Stream(jobs)|)
  }

  /** One job that holds the whole stream, with the clock and the last epoch of the last job. */
  function WholeJob(env: Env, hints: map<FlowKey, string>, jobs: seq<Job>): Job
    requires jobs != []
  {
    var last := jobs[|jobs| - 1];
    Job(ParseResult(Packets(Stream(jobs)), hints, last.parsed.lastEpoch), last.wallClock, env.vendorOf)
  }

  // ---- agreement is enough --------------------------------------------------

  /** A step looks at matcher and hints only where its packet finds no session. */
  lemma StepHints(env: Env, st: State, x: Told, y: Told)
    requires x.evt == y.evt && (Asks(st, y.evt) ==> SameAnswer(x.Hint(env), y.Hint(env)))
    ensures StepTold(env, st, x) == StepTold(env, st, y)
  {
    hide LookupHint, SessionKeyText, Touch;
    var a, b, evt := env.With(x.matcher), env.With(y.matcher), x.evt;
    assert FindOrRegister(a, x.hints, st, evt) == FindOrRegister(b, y.hints, st, evt);
    assert Target(a, x.hints, st, evt) == Target(b, y.hints, st, evt);
  }

  lemma {:induction false} AgreeSame(env: Env, xs: seq<Told>, ys: seq<Told>, n: nat)
    requires n <= |xs| == |ys| && Packets(xs) == Packets(ys) && Agree(env, xs, ys, n)
    ensures Merged(env, xs, n) == Merged(env, ys, n)
  {
    hide Merged, AgreeAt, StepTold, SameAnswer;
    if n == 0 {
      assert xs[..0] == ys[..0] == [];
      Nothing(env, xs);
      Nothing(env, ys);
    } else {
      var j := n - 1;
      AgreeSame(env, xs, ys, j);
      MergedNext(env, xs, j);
      MergedNext(env, ys, j);
      assert AgreeAt(env, xs, ys, j);
      AgreeStep(env, xs, ys, j);
    }
  }

  lemma Nothing(env: Env, xs: seq<Told>)
    ensures Merged(env, xs, 0) == EMPTY
  {
  }

  lemma SamePacket(xs: seq<Told>, ys: seq<Told>, j: nat)
    requires Packets(xs) == Packets(ys) && j < |xs|
    ensures j < |ys| && xs[j].evt == ys[j].evt
  {
    assert |Packets(xs)| == |Packets(ys)|;
    assert Packets(xs)[j] == Packets(ys)[j];
  }

  lemma AgreeStep(env: Env, xs: seq<Told>, ys: seq<Told>, j: nat)
    requires j < |xs| == |ys| && Packets(xs) == Packets(ys) && AgreeAt(env, xs, ys, j)
    ensures StepTold(env, Merged(env, ys, j), xs[j]) == StepTold(env, Merged(env, ys, j), ys[j])
  {
    hide Merged, StepTold, SameAnswer;
    SamePacket(xs, ys, j);
    StepHints(env, Merged(env, ys, j), xs[j], ys[j]);
  }

  // ---- and needed -----------------------------------------------------------

  /** What a merge shows of a connection: what its session was registered with, and how many packets it has. */
  datatype Mark = Mark(domain: string, vendor: string, packets: int)

  function MarkOf(st: State, f: FlowKey): Option<Mark> {
    var k := Find(st, f);
    if k != "" && k in st.sessions then
      Some(Mark(st.sessions[k].id.domain, st.sessions[k].id.vendor, st.sessions[k].packetCount))
    else None
  }

  /** One packet: a packet of the connection is one more, or the first, or is not counted. */
  function NextMark(m: Option<Mark>, env: Env, f: FlowKey, x: Told): Option<Mark> {
    if !OnConnection(x.evt, f) then m
    else match m
      case Some(was) => Some(was.(packets := was.packets + 1))
      case None =>
        if (x.evt.srcPort == 443 || x.evt.dstPort == 443) && x.Hint(env).Usable() then
          Some(Mark(x.Hint(env).domain, x.Hint(env).vendor, 1))
        else None
  }

  lemma MarkStep(env: Env, st: State, f: FlowKey, x: Told)
    requires PlainEnv(env) && PlainPacket(x.evt) && Inv(st) && Unshared(st)
    ensures MarkOf(StepTold(env, st, x), f) == NextMark(MarkOf(st, f), env, f, x)
  {
    hide LookupHint, SessionKeyText, Inv, Unshared, MarkOf, StepTold, OnConnection;
    if !OnConnection(x.evt, f) {
      MarkElsewhere(env, st, f, x);
    } else if Find(st, f) != "" {
      MarkCounted(env, st, f, x);
    } else {
      MarkFirst(env, st, f, x);
    }
  }

  /** The session of a connection is the one session on it. */
  lemma FindOnly(st: State, f: FlowKey, k: string)
    requires Inv(st) && Unshared(st) && k in st.sessions
    ensures SamePair(st.sessions[k].id.flow, f) <==> Find(st, f) == k && k != ""
  {
    FindIsScan(st, f);
    assert k in Scan(st, f) <==> SamePair(st.sessions[k].id.flow, f);
  }

  lemma SamePairBack(f: FlowKey, g: FlowKey)
    ensures SamePair(f, g) <==> SamePair(g, f)
  {
    assert g.Reverse().Reverse() == g && f.Reverse().Reverse() == f;
  }

  lemma SamePairChain(f: FlowKey, g: FlowKey, h: FlowKey)
    requires SamePair(f, g)
    ensures SamePair(f, h) <==> SamePair(g, h)
  {
    assert f == g || f == g.Reverse();
    assert h.Reverse().Reverse() == h;
  }

  lemma FindSame(st: State, f: FlowKey, g: FlowKey)
    requires Inv(st) && Unshared(st) && SamePair(f, g)
    ensures Find(st, f) == Find(st, g)
  {
    hide Inv, Unshared, Find;
    FindIsScan(st, f);
    FindIsScan(st, g);
    forall k <- st.sessions ensures SamePair(st.sessions[k].id.flow, f) <==> SamePair(st.sessions[k].id.flow, g) {
      SamePairChain(f, g, st.sessions[k].id.flow);
      SamePairBack(st.sessions[k].id.flow, f);
      SamePairBack(st.sessions[k].id.flow, g);
    }
    assert Scan(st, f) == Scan(st, g);
    assert Find(st, f) != "" ==> Find(st, f) in Scan(st, g);
    assert Find(st, g) != "" ==> Find(st, g) in Scan(st, f);
  }

  lemma MarkElsewhere(env: Env, st: State, f: FlowKey, x: Told)
    requires PlainEnv(env) && PlainPacket(x.evt) && Inv(st) && Unshared(st) && !OnConnection(x.evt, f)
    ensures MarkOf(StepTold(env, st, x), f) == MarkOf(st, f)
  {
    hide LookupHint, SessionKeyText, Inv, Unshared, Step, Find, SamePair;
    var e, h, evt := env.With(x.matcher), x.hints, x.evt;
    var after := Step(e, h, st, evt);
    StepKeepsInv(e, h, st, evt);
    StepKeepsUnshared(e, h, st, evt);
    if Find(st, f) != "" {
      KeptElsewhere(e, h, st, f, evt);
    } else if Find(after, f) != "" {
      NoneElsewhere(e, h, st, f, evt);
    }
  }

  /** A packet of another connection leaves the session of this one. */
  lemma KeptElsewhere(e: Env, h: map<FlowKey, string>, st: State, f: FlowKey, evt: PacketEvent)
    requires PlainEnv(e) && PlainPacket(evt) && Inv(st) && Unshared(st) && !OnConnection(evt, f) && Find(st, f) != ""
    ensures var after := Step(e, h, st, evt); var k := Find(st, f);
      Find(after, f) == k && k in st.sessions && k in after.sessions && after.sessions[k] == st.sessions[k]
  {
    hide LookupHint, SessionKeyText, Touch, Inv, Unshared, Find;
    var k := Find(st, f);
    FindPair(st, f);
    var dead := {k};
    SamePairBack(f, evt.Flow());
    SamePairChain(st.sessions[k].id.flow, f, evt.Flow());
    assert Spares(st, dead, evt);
    StepWithout(e, h, st, dead, evt);
    StepKeepsInv(e, h, st, evt);
    StepKeepsUnshared(e, h, st, evt);
    FindOnly(Step(e, h, st, evt), f, k);
    KeyNonEmpty(st, k);
  }

  lemma KeyNonEmpty(st: State, k: string)
    requires Inv(st) && k in st.sessions
    ensures k != ""
  {
  }

  /** A packet of another connection opens no session of this one. */
  lemma NoneElsewhere(e: Env, h: map<FlowKey, string>, st: State, f: FlowKey, evt: PacketEvent)
    requires PlainEnv(e) && PlainPacket(evt) && Inv(st) && Unshared(st) && !OnConnection(evt, f) && Find(st, f) == ""
    ensures Find(Step(e, h, st, evt), f) == ""
  {
    hide LookupHint, SessionKeyText, Touch, Inv, Unshared, Find, Step;
    var after := Step(e, h, st, evt);
    StepKeepsInv(e, h, st, evt);
    StepKeepsUnshared(e, h, st, evt);
    if Find(after, f) != "" {
      var k := Find(after, f);
      FindPair(after, f);
      if k == Target(e, h, st, evt) {
        TargetOn(e, h, st, evt);
        SamePairChain(after.sessions[k].id.flow, f, evt.Flow());
        assert false;
      } else {
        UntouchedSession(e, h, st, evt, k);
        FindOnly(st, f, k);
        KeyNonEmpty(st, k);
        assert false;
      }
    }
  }

  lemma MarkCounted(env: Env, st: State, f: FlowKey, x: Told)
    requires PlainEnv(env) && PlainPacket(x.evt) && Inv(st) && Unshared(st) && OnConnection(x.evt, f)
    requires Find(st, f) != ""
    ensures MarkOf(st, f).Some?
    ensures MarkOf(StepTold(env, st, x), f) == NextMark(MarkOf(st, f), env, f, x)
  {
    hide LookupHint, SessionKeyText, Inv, Unshared, Find, FindOrRegister, Target;
    var e, h, evt := env.With(x.matcher), x.hints, x.evt;
    var k, after := Find(st, f), Step(e, h, st, evt);
    FindPair(st, f);
    SamePairChain(st.sessions[k].id.flow, f, evt.Flow());
    TargetIsOwner(e, h, st, evt, k);
    StepKeepsInv(e, h, st, evt);
    StepKeepsUnshared(e, h, st, evt);
    FindOnly(after, f, k);
  }

  lemma MarkFirst(env: Env, st: State, f: FlowKey, x: Told)
    requires PlainEnv(env) && PlainPacket(x.evt) && Inv(st) && Unshared(st) && OnConnection(x.evt, f)
    requires Find(st, f) == ""
    ensures MarkOf(StepTold(env, st, x), f) == NextMark(MarkOf(st, f), env, f, x)
  {
    hide LookupHint, SessionKeyText, Inv, Unshared, Find, Touch;
    var e, h, evt := env.With(x.matcher), x.hints, x.evt;
    var after := Step(e, h, st, evt);
    SamePairBack(f, evt.Flow());
    FindSame(st, f, evt.Flow());
    StepKeepsInv(e, h, st, evt);
    StepKeepsUnshared(e, h, st, evt);
    if Registers(e, h, st, evt) {
      FirstMark(e, h, st, evt);
      FindSame(after, f, evt.Flow());
    } else {
      assert after == st;
    }
  }

  lemma FirstMark(e: Env, h: map<FlowKey, string>, st: State, evt: PacketEvent)
    requires PlainEnv(e) && PlainPacket(evt) && Inv(st) && Unshared(st) && Registers(e, h, st, evt)
    ensures MarkOf(Step(e, h, st, evt), evt.Flow())
       == Some(Mark(LookupHint(e, h, evt).domain, LookupHint(e, h, evt).vendor, 1))
  {
    hide LookupHint, SessionKeyText, Inv, Unshared, LogsAfter;
    NewSessionPrinted(e, evt, LookupHint(e, h, evt));
  }

  /** One of two merges has counted the connection's packets further, or under another hint. */
  predicate Ahead(a: Option<Mark>, b: Option<Mark>) {
    && a.Some? && a.value.packets >= 1
    && (b.None? || b.value.packets < a.value.packets
        || (b.value.domain, b.value.vendor) != (a.value.domain, a.value.vendor))
  }

  predicate Apart(a: Option<Mark>, b: Option<Mark>) {
    Ahead(a, b) || Ahead(b, a)
  }

  lemma ApartStep(a: Option<Mark>, b: Option<Mark>, env: Env, f: FlowKey, x: Told, y: Told)
    requires x.evt == y.evt && Apart(a, b)
    ensures Apart(NextMark(a, env, f, x), NextMark(b, env, f, y))
  {
    hide LookupHint;
  }

  lemma {:induction false} ApartStays(env: Env, xs: seq<Told>, ys: seq<Told>, a: nat, n: nat, f: FlowKey)
    requires PlainEnv(env) && PositiveEpochs(xs) && PositiveEpochs(ys) && a <= n <= |xs| == |ys|
    requires Packets(xs) == Packets(ys)
    requires Apart(MarkOf(Merged(env, xs, a), f), MarkOf(Merged(env, ys, a), f))
    ensures Apart(MarkOf(Merged(env, xs, n), f), MarkOf(Merged(env, ys, n), f))
  {
    hide Merged, MarkOf, NextMark, StepTold, Apart;
    if a < n {
      var j := n - 1;
      ApartStays(env, xs, ys, a, j, f);
      MergedMark(env, xs, j, f);
      MergedMark(env, ys, j, f);
      SamePacket(xs, ys, j);
      ApartStep(MarkOf(Merged(env, xs, j), f), MarkOf(Merged(env, ys, j), f), env, f, xs[j], ys[j]);
    }
  }

  lemma MergedMark(env: Env, xs: seq<Told>, j: nat, f: FlowKey)
    requires PlainEnv(env) && PositiveEpochs(xs) && j < |xs|
    ensures MarkOf(Merged(env, xs, j + 1), f) == NextMark(MarkOf(Merged(env, xs, j), f), env, f, xs[j])
  {
    hide Merged, MarkOf, NextMark, StepTold, Inv, Unshared;
    MergedGood(env, xs, j);
    MergedNext(env, xs, j);
    MarkStep(env, Merged(env, xs, j), f, xs[j]);
  }

  /** At the first packet that is told something else, the two merges come apart. */
  lemma ApartAt(env: Env, xs: seq<Told>, ys: seq<Told>, j: nat)
    requires PlainEnv(env) && PositiveEpochs(xs) && PositiveEpochs(ys) && j < |xs| == |ys| && Packets(xs) == Packets(ys)
    requires Merged(env, xs, j) == Merged(env, ys, j) && !AgreeAt(env, xs, ys, j)
    ensures Apart(MarkOf(Merged(env, xs, j + 1), ys[j].evt.Flow()), MarkOf(Merged(env, ys, j + 1), ys[j].evt.Flow()))
  {
    hide Merged, LookupHint, Find;
    var f := ys[j].evt.Flow();
    SamePacket(xs, ys, j);
    MergedMark(env, xs, j, f);
    MergedMark(env, ys, j, f);
  }

  /** Two outcomes that are equal show the same of every connection. */
  lemma SameMarks(env: Env, u: State, v: State, epoch: real, f: FlowKey)
    requires Inv(u) && Unshared(u) && Inv(v) && Unshared(v)
    requires SweptOnce(env, u, epoch) == SweptOnce(env, v, epoch)
    ensures MarkOf(u, f).Some? ==> MarkOf(v, f) == MarkOf(u, f)
  {
    hide Idle, Inv, Unshared, Find, SweptOnce;
    var k := Find(u, f);
    if k != "" && k in u.sessions {
      FindPair(u, f);
      SameCore(env, u, v, epoch, k);
      FindOnly(v, f, k);
    }
  }

  lemma SameCore(env: Env, u: State, v: State, epoch: real, k: string)
    requires SweptOnce(env, u, epoch) == SweptOnce(env, v, epoch) && k in u.sessions
    ensures k in v.sessions && v.sessions[k].id == u.sessions[k].id
    ensures v.sessions[k].packetCount == u.sessions[k].packetCount
  {
    hide Idle;
    if Idle(env, u.sessions[k], epoch) {
      assert k in Expired(env, u, epoch);
    } else {
      assert k in Sweep(env, u, epoch).sessions;
    }
  }

  lemma ApartOutcomes(env: Env, u: State, v: State, epoch: real, f: FlowKey)
    requires Inv(u) && Unshared(u) && Inv(v) && Unshared(v) && Apart(MarkOf(u, f), MarkOf(v, f))
    ensures SweptOnce(env, u, epoch) != SweptOnce(env, v, epoch)
  {
    hide Inv, Unshared, MarkOf, SweptOnce;
    if SweptOnce(env, u, epoch) == SweptOnce(env, v, epoch) {
      SameMarks(env, u, v, epoch, f);
      SameMarks(env, v, u, epoch, f);
    }
  }

  lemma {:induction false} FirstDisagreement(env: Env, xs: seq<Told>, ys: seq<Told>, n: nat) returns (j: nat)
    requires n <= |xs| == |ys| && !Agree(env, xs, ys, n)
    ensures j < n && !AgreeAt(env, xs, ys, j) && Agree(env, xs, ys, j)
  {
    hide AgreeAt;
    j := n - 1;
    if !Agree(env, xs, ys, j) {
      j := FirstDisagreement(env, xs, ys, j);
    }
  }

  /**
   Two streams of the same packets leave the same after a sweep exactly when
   they agree wherever a packet finds no session.
   */
  lemma {:induction false} SameOutcomeIff(env: Env, xs: seq<Told>, ys: seq<Told>, epoch: real)
    requires PlainEnv(env) && PositiveEpochs(xs) && PositiveEpochs(ys) && |xs| == |ys| && Packets(xs) == Packets(ys)
    ensures SweptOnce(env, Unswept(env, xs), epoch) == SweptOnce(env, Unswept(env, ys), epoch)
       <==> Agree(env, xs, ys, |xs|)
  {
    hide Unswept, Agree, AgreeAt, MarkOf, SweptOnce, Apart;
    var n := |xs|;
    assert xs[..n] == xs && ys[..n] == ys;
    if Agree(env, xs, ys, n) {
      AgreeSame(env, xs, ys, n);
    } else {
      var j := FirstDisagreement(env, xs, ys, n);
      AgreeSame(env, xs, ys, j);
      ApartAt(env, xs, ys, j);
      var f := ys[j].evt.Flow();
      ApartStays(env, xs, ys, j + 1, n, f);
      MergedGood(env, xs, n);
      MergedGood(env, ys, n);
      ApartOutcomes(env, Merged(env, xs, n), Merged(env, ys, n), epoch, f);
    }
  }

  // ---- windows and the whole ------------------------------------------------

  lemma OneWholeWindow(env: Env, hints: map<FlowKey, string>, jobs: seq<Job>)
    requires jobs != []
    ensures Stream([WholeJob(env, hints, jobs)]) == Whole(env, hints, jobs)
    ensures |Whole(env, hints, jobs)| == |Stream(jobs)| && Packets(Whole(env, hints, jobs)) == Packets(Stream(jobs))
    ensures WholeJob(env, hints, jobs).SweepEpoch() == jobs[|jobs| - 1].SweepEpoch()
  {
    hide Packets;
    var job := WholeJob(env, hints, jobs);
    assert [job][..0] == [];
    assert Stream([job]) == [] + TellJob(job);
    PacketsTold(env.vendorOf, hints, Packets(Stream(jobs)));
    assert |Packets(Stream(jobs))| == |Stream(jobs)| by {
      PacketsLength(Stream(jobs));
    }
  }

  lemma PacketsLength(xs: seq<Told>)
    ensures |Packets(xs)| == |xs|
  {
  }

  lemma PacketsTold(matcher: Matcher, hints: map<FlowKey, string>, evts: seq<PacketEvent>)
    ensures Packets(TellAll(matcher, hints, evts)) == evts
  {
  }

  /** What asks only about the packets is the same of both. */
  lemma SameConditions(env: Env, xs: seq<Told>, ys: seq<Told>)
    requires |xs| == |ys| && Packets(xs) == Packets(ys)
    ensures PositiveEpochs(xs) ==> PositiveEpochs(ys)
    ensures SmallGaps(env, xs) ==> SmallGaps(env, ys)
  {
    hide PlainPacket;
    forall i | 0 <= i < |xs| ensures xs[i].evt == ys[i].evt {
      SamePacket(xs, ys, i);
    }
    if SmallGaps(env, xs) {
      forall i, j | 0 <= i < j < |ys| && ys[j].evt.protocol.Tcp? && Latest(ys, j, ys[j].evt.Flow(), i)
        ensures ys[j].evt.epoch - ys[i].evt.epoch < env.idleSeconds as real
      {
        assert Latest(xs, j, xs[j].evt.Flow(), i);
      }
    }
  }

  /**
   Cutting a stream into windows, each swept at an epoch no later than the next
   window's packets, leaves what one merge of the whole stream with one sweep
   leaves, exactly when every packet that finds no session is told by its window
   what the whole stream tells it.
   */
  lemma {:induction false} WindowingTransparent(env: Env, hints: map<FlowKey, string>, jobs: seq<Job>)
    requires jobs != [] && PlainEnv(env)
    requires PositiveEpochs(Stream(jobs)) && SmallGaps(env, Stream(jobs)) && SweepsInOrder(jobs)
    ensures ProcessJobs(env, START, jobs) == ProcessJob(env, START, WholeJob(env, hints, jobs))
       <==> HintsAgree(env, hints, jobs)
  {
    hide Unswept, SmallGaps, Agree, ProcessJob, SweptOnce, Stream, Packets, PositiveEpochs;
    var whole := WholeJob(env, hints, jobs);
    var xs, ys := Stream(jobs), Whole(env, hints, jobs);
    OneWholeWindow(env, hints, jobs);
    SameConditions(env, xs, ys);
    WindowsAreUnswept(env, jobs);
    WindowsAreUnswept(env, [whole]);
    assert [whole][..0] == [] && ProcessJobs(env, START, []) == START;
    assert ProcessJobs(env, START, [whole]) == ProcessJob(env, START, whole);
    SameOutcomeIff(env, xs, ys, whole.SweepEpoch());
  }
}
