/**
 Windows with their own hints.  A capture file yields hints only for the flows
 it holds, so a connection that continues in the next file has its hint in the
 first one alone.  That is enough: when no packet of a connection comes in a
 window before the one that holds its first hint, processing the windows is one
 merge with, for every connection, the hint of its first hinted window.  Where
 no address hint steps in, that condition is also needed.
 */
module WindowHints {
  import opened Model
  import opened Keys
  import opened Tracker
  import opened Indexes
  import opened Lists
  import opened Windowing
  import opened WholeStream

  /** The hints of a window whose domain the matcher knows. */
  function Known(env: Env, w: ParseResult): map<FlowKey, string> {
    w.payloadHints - (set f | f in w.payloadHints && env.vendorOf(w.payloadHints[f]) == "")
  }

  /** A hint for a connection, under either of its two flows. */
  predicate Knows(hints: map<FlowKey, string>, f: FlowKey) {
    f in hints || f.Reverse() in hints
  }

  /** For every connection the hints of the first window that has one for it. */
  function FirstHints(env: Env, jobs: seq<Job>): map<FlowKey, string> {
    if jobs == [] then map[]
    else
      var earlier, known := FirstHints(env, jobs[..|jobs| - 1]), Known(env, jobs[|jobs| - 1].parsed);
      earlier + (known - (set f | f in known && Knows(earlier, f)))
  }

  /** Hints are non-empty domains, recorded for TCP packets to port 443 that the window holds. */
  predicate FromPackets(w: ParseResult) {
    forall f <- w.payloadHints ::
      w.payloadHints[f] != "" && f.dstPort == 443 && exists p <- w.packetEvents :: p.protocol.Tcp? && p.Flow() == f
  }

  /** One of the first `n` windows has a known hint for the connection of `f`. */
  predicate HintedBy(env: Env, jobs: seq<Job>, n: nat, f: FlowKey)
    requires n <= |jobs|
  {
    exists m: nat :: m < n && Knows(Known(env, jobs[m].parsed), f)
  }

  /** No TCP packet of a hinted connection comes in a window before the one that holds its first hint. */
  ghost predicate HintLeads(env: Env, jobs: seq<Job>) {
    forall i: nat, p | i < |jobs| && p in jobs[i].parsed.packetEvents && p.protocol.Tcp? ::
      HintedBy(env, jobs, |jobs|, p.Flow()) ==> HintedBy(env, jobs, i + 1, p.Flow())
  }

  // ---- the first hints ------------------------------------------------------

  /** Two hint maps are the same on one connection. */
  predicate SameOn(a: map<FlowKey, string>, b: map<FlowKey, string>, f: FlowKey) {
    SameAt(a, b, f) && SameAt(a, b, f.Reverse())
  }

  predicate SameAt(a: map<FlowKey, string>, b: map<FlowKey, string>, f: FlowKey) {
    (f in a <==> f in b) && (f in a ==> a[f] == b[f])
  }

  lemma {:induction false} NeverHinted(env: Env, jobs: seq<Job>, f: FlowKey)
    requires !HintedBy(env, jobs, |jobs|, f)
    ensures !Knows(FirstHints(env, jobs), f)
  {
    if jobs != [] {
      var n := |jobs| - 1;
      assert !HintedBy(env, jobs[..n], n, f) by {
        assert forall m: nat | m < n :: jobs[..n][m] == jobs[m];
      }
      NeverHinted(env, jobs[..n], f);
      assert !Knows(Known(env, jobs[n].parsed), f);
    }
  }

  /** On a connection the first hints are those of the first window that has one. */
  lemma {:induction false} FirstHintsAre(env: Env, jobs: seq<Job>, f: FlowKey, k: nat)
    requires k < |jobs| && Knows(Known(env, jobs[k].parsed), f) && !HintedBy(env, jobs, k, f)
    ensures SameOn(FirstHints(env, jobs), Known(env, jobs[k].parsed), f)
  {
    hide Known;
    var n := |jobs| - 1;
    assert forall m: nat | m < n :: jobs[..n][m] == jobs[m];
    if k == n {
      assert !HintedBy(env, jobs[..n], n, f);
      NeverHinted(env, jobs[..n], f);
    } else {
      assert !HintedBy(env, jobs[..n], k, f);
      FirstHintsAre(env, jobs[..n], f, k);
    }
  }

  lemma {:induction false} FirstHinted(env: Env, jobs: seq<Job>, n: nat, f: FlowKey) returns (k: nat)
    requires n <= |jobs| && HintedBy(env, jobs, n, f)
    ensures k < n && Knows(Known(env, jobs[k].parsed), f) && !HintedBy(env, jobs, k, f)
  {
    k :| k < n && Knows(Known(env, jobs[k].parsed), f);
    if HintedBy(env, jobs, k, f) {
      k := FirstHinted(env, jobs, k, f);
    }
  }

  /** The matcher is not replaced while these windows are merged. */
  ghost predicate OneMatcher(env: Env, jobs: seq<Job>) {
    forall job <- jobs :: job.matcher == env.vendorOf
  }

  lemma LookupOn(env: Env, hints: map<FlowKey, string>, w: ParseResult, p: PacketEvent)
    requires SameOn(hints, Known(env, w), p.Flow())
    ensures LookupHint(env, hints, p) == LookupHint(env, w.payloadHints, p)
  {
  }

  // ---- a hinted connection is bound, and stays so ---------------------------

  lemma {:induction false} MarkLater(env: Env, xs: seq<Told>, a: nat, b: nat, f: FlowKey)
    requires PlainEnv(env) && PositiveEpochs(xs) && a <= b <= |xs| && MarkOf(Merged(env, xs, a), f).Some?
    ensures MarkOf(Merged(env, xs, b), f).Some?
  {
    hide Merged, MarkOf, OnConnection;
    if a < b {
      MarkLater(env, xs, a, b - 1, f);
      MergedMark(env, xs, b - 1, f);
    }
  }

  lemma {:induction false} NoMarkYet(env: Env, xs: seq<Told>, n: nat, f: FlowKey)
    requires PlainEnv(env) && PositiveEpochs(xs) && n <= |xs| && forall m: nat | m < n :: !OnConnection(xs[m].evt, f)
    ensures MarkOf(Merged(env, xs, n), f).None?
  {
    if n > 0 {
      NoMarkYet(env, xs, n - 1, f);
      MergedMark(env, xs, n - 1, f);
    }
  }

  /** After a packet with a usable hint, no packet of its connection consults the hints again. */
  lemma AsksNoMore(env: Env, xs: seq<Told>, i: nat, j: nat)
    requires PlainEnv(env) && PositiveEpochs(xs) && i < j < |xs|
    requires xs[i].evt.protocol.Tcp? && xs[i].evt.dstPort == 443 && xs[i].Hint(env).Usable()
    requires SamePair(xs[i].evt.Flow(), xs[j].evt.Flow())
    ensures !Asks(Merged(env, xs, j), xs[j].evt)
  {
    hide Merged, LookupHint, SamePair;
    var f := xs[j].evt.Flow();
    SamePairBack(xs[i].evt.Flow(), f);
    MergedMark(env, xs, i, f);
    MarkLater(env, xs, i + 1, j, f);
  }

  /** The first packet of a connection on port 443 consults the hints. */
  lemma FirstAsks(env: Env, xs: seq<Told>, j: nat)
    requires PlainEnv(env) && PositiveEpochs(xs) && j < |xs|
    requires var p := xs[j].evt; p.protocol.Tcp? && (p.srcPort == 443 || p.dstPort == 443)
    requires forall m: nat | m < j :: !OnConnection(xs[m].evt, xs[j].evt.Flow())
    ensures Asks(Merged(env, xs, j), xs[j].evt)
  {
    hide Merged, Find, Inv, Unshared;
    var f, st := xs[j].evt.Flow(), Merged(env, xs, j);
    NoMarkYet(env, xs, j, f);
    MergedGood(env, xs, j);
    if Find(st, f) != "" {
      FindPair(st, f);
    }
  }

  // ---- places in the stream -------------------------------------------------

  /** Where a packet of a window stands in the stream. */
  lemma Position(jobs: seq<Job>, i: nat, m: nat)
    requires i < |jobs| && m < |jobs[i].parsed.packetEvents|
    ensures |Stream(jobs[..i])| + m < |Stream(jobs)|
    ensures Stream(jobs)[|Stream(jobs[..i])| + m]
         == Told(jobs[i].matcher, jobs[i].parsed.payloadHints, jobs[i].parsed.packetEvents[m])
  {
    hide Stream;
    WindowStretch(jobs, i + 1);
    var a, xs := |Stream(jobs[..i])|, TellJob(jobs[i]);
    assert Stream(jobs)[a..a + |xs|][m] == Stream(jobs)[a + m];
  }

  /** The window that a position of the stream falls in. */
  lemma {:induction false} WindowOf(jobs: seq<Job>, j: nat) returns (i: nat, m: nat)
    requires j < |Stream(jobs)|
    ensures i < |jobs| && m < |jobs[i].parsed.packetEvents| && j == |Stream(jobs[..i])| + m
  {
    var n := |jobs| - 1;
    if j < |Stream(jobs[..n])| {
      i, m := WindowOf(jobs[..n], j);
      assert jobs[..n][..i] == jobs[..i];
    } else {
      i, m := n, j - |Stream(jobs[..n])|;
    }
  }

  lemma {:induction false} EarlierWindow(jobs: seq<Job>, k: nat, i: nat)
    requires k < i <= |jobs|
    ensures |Stream(jobs[..k])| + |jobs[k].parsed.packetEvents| <= |Stream(jobs[..i])|
  {
    WindowStretch(jobs[..i], k + 1);
    assert jobs[..i][..k] == jobs[..k] && jobs[..i][..k + 1] == jobs[..k + 1];
  }

  /** What the whole stream tells a packet. */
  lemma WholeAt(env: Env, hints: map<FlowKey, string>, jobs: seq<Job>, j: nat)
    requires j < |Stream(jobs)|
    ensures j < |Whole(env, hints, jobs)|
    ensures Whole(env, hints, jobs)[j] == Told(env.vendorOf, hints, Stream(jobs)[j].evt)
  {
  }

  // ---- every window agrees --------------------------------------------------

  /** A packet is told by its window, and by the first hints, what its connection's own look-ups say. */
  lemma HintsAt(env: Env, hints: map<FlowKey, string>, jobs: seq<Job>, i: nat, m: nat)
    requires OneMatcher(env, jobs) && i < |jobs| && m < |jobs[i].parsed.packetEvents|
    ensures var j, p := |Stream(jobs[..i])| + m, jobs[i].parsed.packetEvents[m];
      && j < |Stream(jobs)| == |Whole(env, hints, jobs)|
      && Stream(jobs)[j].evt == Whole(env, hints, jobs)[j].evt == p
      && Stream(jobs)[j].Hint(env) == LookupHint(env, jobs[i].parsed.payloadHints, p)
      && Whole(env, hints, jobs)[j].Hint(env) == LookupHint(env, hints, p)
  {
    hide Stream, Whole;
    Position(jobs, i, m);
    WholeAt(env, hints, jobs, |Stream(jobs[..i])| + m);
    WholeLength(env, hints, jobs);
    assert jobs[i] in jobs;
    assert env.With(env.vendorOf) == env;
  }

  lemma WholeLength(env: Env, hints: map<FlowKey, string>, jobs: seq<Job>)
    ensures |Whole(env, hints, jobs)| == |Stream(jobs)|
  {
  }

  lemma OwnHintAgrees(env: Env, jobs: seq<Job>, i: nat, m: nat)
    requires PlainEnv(env) && OneMatcher(env, jobs) && PositiveEpochs(Stream(jobs)) && HintLeads(env, jobs)
    requires forall job <- jobs :: FromPackets(job.parsed)
    requires i < |jobs| && m < |jobs[i].parsed.packetEvents|
    ensures var j, ys := |Stream(jobs[..i])| + m, Whole(env, FirstHints(env, jobs), jobs);
      && j < |Stream(jobs)| == |ys|
      && AgreeAt(env, Stream(jobs), ys, j)
  {
    hide Stream, Whole, FirstHints, Known, Knows, LookupHint, Merged, Find, Told.Hint;
    var hints := FirstHints(env, jobs);
    var ys, j := Whole(env, hints, jobs), |Stream(jobs[..i])| + m;
    HintsAt(env, hints, jobs, i, m);
    var p := jobs[i].parsed.packetEvents[m];
    if Asks(Merged(env, ys, j), p) {
      if !HintedBy(env, jobs, |jobs|, p.Flow()) {
        NeverHinted(env, jobs, p.Flow());
        NoneKnown(hints, Known(env, jobs[i].parsed), p.Flow());
        LookupOn(env, hints, jobs[i].parsed, p);
      } else {
        var k := FirstHinted(env, jobs, i + 1, p.Flow());
        FirstHintsAre(env, jobs, p.Flow(), k);
        if k == i {
          LookupOn(env, hints, jobs[i].parsed, p);
        } else {
          AskedTooLate(env, jobs, k, i, m);
        }
      }
    }
  }

  lemma NoneKnown(a: map<FlowKey, string>, b: map<FlowKey, string>, f: FlowKey)
    requires !Knows(a, f) && !Knows(b, f)
    ensures SameOn(a, b, f)
  {
  }

  /** The packet a hint was taken from. */
  lemma HintPacket(env: Env, hints: map<FlowKey, string>, w: ParseResult, f: FlowKey) returns (m: nat)
    requires FromPackets(w) && Knows(Known(env, w), f) && SameOn(hints, Known(env, w), f)
    ensures m < |w.packetEvents|
    ensures var q := w.packetEvents[m];
      q.protocol.Tcp? && q.dstPort == 443 && SamePair(q.Flow(), f) && LookupHint(env, hints, q).Usable()
  {
    var g := if f in Known(env, w) then f else f.Reverse();
    var q :| q in w.packetEvents && q.protocol.Tcp? && q.Flow() == g;
    m :| 0 <= m < |w.packetEvents| && w.packetEvents[m] == q;
  }

  lemma AskedTooLate(env: Env, jobs: seq<Job>, k: nat, i: nat, m: nat)
    requires PlainEnv(env) && OneMatcher(env, jobs) && PositiveEpochs(Stream(jobs))
    requires k < i < |jobs| && m < |jobs[i].parsed.packetEvents|
    requires FromPackets(jobs[k].parsed) && Knows(Known(env, jobs[k].parsed), jobs[i].parsed.packetEvents[m].Flow())
    requires SameOn(FirstHints(env, jobs), Known(env, jobs[k].parsed), jobs[i].parsed.packetEvents[m].Flow())
    requires |Stream(jobs[..i])| + m < |Whole(env, FirstHints(env, jobs), jobs)|
    ensures var ys := Whole(env, FirstHints(env, jobs), jobs);
      !Asks(Merged(env, ys, |Stream(jobs[..i])| + m), jobs[i].parsed.packetEvents[m])
  {
    hide Stream, Whole, FirstHints, Known, Knows, LookupHint, Merged, Find, Told.Hint, Packets;
    var hints, p := FirstHints(env, jobs), jobs[i].parsed.packetEvents[m];
    var ys := Whole(env, hints, jobs);
    var m' := HintPacket(env, hints, jobs[k].parsed, p.Flow());
    HintsAt(env, hints, jobs, k, m');
    HintsAt(env, hints, jobs, i, m);
    EarlierWindow(jobs, k, i);
    WholeIsPlain(env, hints, jobs);
    AsksNoMore(env, ys, |Stream(jobs[..k])| + m', |Stream(jobs[..i])| + m);
  }

  lemma WholeIsPlain(env: Env, hints: map<FlowKey, string>, jobs: seq<Job>)
    requires PositiveEpochs(Stream(jobs))
    ensures PositiveEpochs(Whole(env, hints, jobs))
  {
    hide PlainPacket;
  }

  lemma {:induction false} OwnHintsAgree(env: Env, jobs: seq<Job>)
    requires PlainEnv(env) && OneMatcher(env, jobs) && PositiveEpochs(Stream(jobs)) && HintLeads(env, jobs)
    requires forall job <- jobs :: FromPackets(job.parsed)
    ensures HintsAgree(env, FirstHints(env, jobs), jobs)
  {
    hide FirstHints, HintLeads, FromPackets, AgreeAt, PositiveEpochs;
    var xs, ys := Stream(jobs), Whole(env, FirstHints(env, jobs), jobs);
    WholeLength(env, FirstHints(env, jobs), jobs);
    forall j: nat | j < |xs| ensures AgreeAt(env, xs, ys, j) {
      var i, m := WindowOf(jobs, j);
      OwnHintAgrees(env, jobs, i, m);
    }
  }

  // ---- and only then --------------------------------------------------------

  /** The first packet of a connection in a stream. */
  lemma {:induction false} FirstPacketOn(xs: seq<Told>, n: nat, f: FlowKey) returns (j: nat)
    requires n < |xs| && OnConnection(xs[n].evt, f)
    ensures j <= n && OnConnection(xs[j].evt, f) && forall m: nat | m < j :: !OnConnection(xs[m].evt, f)
  {
    hide OnConnection;
    j := n;
    if exists m: nat :: m < n && OnConnection(xs[m].evt, f) {
      var m: nat :| m < n && OnConnection(xs[m].evt, f);
      j := FirstPacketOn(xs, m, f);
    }
  }

  lemma HintedFlow(env: Env, jobs: seq<Job>, f: FlowKey)
    requires (forall job <- jobs :: FromPackets(job.parsed)) && HintedBy(env, jobs, |jobs|, f)
    ensures f.dstPort == 443 || f.srcPort == 443
  {
    var m: nat :| m < |jobs| && Knows(Known(env, jobs[m].parsed), f);
    assert jobs[m] in jobs;
  }

  lemma HintedPair(env: Env, jobs: seq<Job>, n: nat, f: FlowKey, g: FlowKey)
    requires n <= |jobs| && SamePair(f, g) && HintedBy(env, jobs, n, f)
    ensures HintedBy(env, jobs, n, g)
  {
    hide Known;
    var m: nat :| m < n && Knows(Known(env, jobs[m].parsed), f);
    assert g.Reverse().Reverse() == g;
    assert Knows(Known(env, jobs[m].parsed), g);
  }

  /** Without address hints a packet is told nothing usable when its window knows no hint for its connection. */
  lemma ToldNothing(env: Env, w: ParseResult, p: PacketEvent)
    requires env.ipHints == map[] && !Knows(Known(env, w), p.Flow())
    ensures !LookupHint(env, w.payloadHints, p).Usable()
  {
  }

  lemma ToldFirst(env: Env, hints: map<FlowKey, string>, w: ParseResult, p: PacketEvent)
    requires FromPackets(w) && Knows(Known(env, w), p.Flow()) && SameOn(hints, Known(env, w), p.Flow())
    ensures LookupHint(env, hints, p).Usable()
  {
  }

  /**
   A handshake that straddles a cut before its ClientHello: its first packet
   is told less by its window than by the first hints.
   */
  lemma TooEarly(env: Env, jobs: seq<Job>, i: nat, m: nat)
    requires PlainEnv(env) && OneMatcher(env, jobs) && env.ipHints == map[] && PositiveEpochs(Stream(jobs))
    requires forall job <- jobs :: FromPackets(job.parsed)
    requires i < |jobs| && m < |jobs[i].parsed.packetEvents| && |Stream(jobs[..i])| + m < |Stream(jobs)|
    requires var p := jobs[i].parsed.packetEvents[m];
      p.protocol.Tcp? && HintedBy(env, jobs, |jobs|, p.Flow()) && !HintedBy(env, jobs, i + 1, p.Flow())
    requires forall k: nat | k < |Stream(jobs[..i])| + m ::
      !OnConnection(Stream(jobs)[k].evt, jobs[i].parsed.packetEvents[m].Flow())
    ensures !HintsAgree(env, FirstHints(env, jobs), jobs)
  {
    hide Stream, Whole, FirstHints, Known, Knows, LookupHint, Merged, Find, Told.Hint, FromPackets,
         OnConnection, PositiveEpochs;
    var hints, p := FirstHints(env, jobs), jobs[i].parsed.packetEvents[m];
    var xs, ys, j := Stream(jobs), Whole(env, hints, jobs), |Stream(jobs[..i])| + m;
    HintsAt(env, hints, jobs, i, m);
    HintedFlow(env, jobs, p.Flow());
    WholeIsPlain(env, hints, jobs);
    forall k: nat | k < j ensures !OnConnection(ys[k].evt, p.Flow()) {
      WholeAt(env, hints, jobs, k);
    }
    FirstAsks(env, ys, j);
    var k := FirstHinted(env, jobs, |jobs|, p.Flow());
    FirstHintsAre(env, jobs, p.Flow(), k);
    assert jobs[k] in jobs;
    ToldFirst(env, hints, jobs[k].parsed, p);
    assert !Knows(Known(env, jobs[i].parsed), p.Flow());
    ToldNothing(env, jobs[i].parsed, p);
    assert !AgreeAt(env, xs, ys, j);
  }

  lemma {:induction false} LeadsIfAgree(env: Env, jobs: seq<Job>, i: nat, m: nat)
    requires PlainEnv(env) && OneMatcher(env, jobs) && env.ipHints == map[] && PositiveEpochs(Stream(jobs))
    requires forall job <- jobs :: FromPackets(job.parsed)
    requires i < |jobs| && m < |jobs[i].parsed.packetEvents|
    requires var p := jobs[i].parsed.packetEvents[m];
      p.protocol.Tcp? && HintedBy(env, jobs, |jobs|, p.Flow()) && !HintedBy(env, jobs, i + 1, p.Flow())
    ensures !HintsAgree(env, FirstHints(env, jobs), jobs)
  {
    hide Stream, FirstHints, Known, Knows, HintsAgree, FromPackets, PositiveEpochs;
    var p := jobs[i].parsed.packetEvents[m];
    Position(jobs, i, m);
    var f, n := p.Flow(), |Stream(jobs[..i])| + m;
    var j := FirstPacketOn(Stream(jobs), n, f);
    var i', m' := WindowOf(jobs, j);
    Position(jobs, i', m');
    var q := jobs[i'].parsed.packetEvents[m'];
    if i < i' {
      EarlierWindow(jobs, i, i');
    }
    assert i' <= i;
    SameConnection(env, jobs, i, i', f, q);
    TooEarly(env, jobs, i', m');
  }

  lemma SameConnection(env: Env, jobs: seq<Job>, i: nat, i': nat, f: FlowKey, q: PacketEvent)
    requires i' <= i < |jobs| && OnConnection(q, f)
    requires HintedBy(env, jobs, |jobs|, f) && !HintedBy(env, jobs, i + 1, f)
    ensures HintedBy(env, jobs, |jobs|, q.Flow()) && !HintedBy(env, jobs, i' + 1, q.Flow())
    ensures forall p: PacketEvent :: OnConnection(p, q.Flow()) <==> OnConnection(p, f)
  {
    hide HintedBy, SamePair;
    HintedPair(env, jobs, |jobs|, f, q.Flow());
    SamePairBack(f, q.Flow());
    if HintedBy(env, jobs, i' + 1, q.Flow()) {
      HintedPair(env, jobs, i' + 1, q.Flow(), f);
      HintedMore(env, jobs, i' + 1, i + 1, f);
    }
    forall p: PacketEvent ensures OnConnection(p, q.Flow()) <==> OnConnection(p, f) {
      SamePairChain(f, q.Flow(), p.Flow());
    }
  }

  lemma HintedMore(env: Env, jobs: seq<Job>, a: nat, b: nat, f: FlowKey)
    requires a <= b <= |jobs| && HintedBy(env, jobs, a, f)
    ensures HintedBy(env, jobs, b, f)
  {
    hide Known;
  }

  /**
   Windows that bring their own hints are transparent when no packet of a
   connection precedes the window of its first hint; where no address hint
   steps in, exactly then.
   */
  lemma {:induction false} OwnHintsTransparent(env: Env, jobs: seq<Job>)
    requires jobs != [] && PlainEnv(env) && OneMatcher(env, jobs)
    requires PositiveEpochs(Stream(jobs)) && SmallGaps(env, Stream(jobs)) && SweepsInOrder(jobs)
    requires forall job <- jobs :: FromPackets(job.parsed)
    ensures HintLeads(env, jobs) ==>
      ProcessJobs(env, START, jobs) == ProcessJob(env, START, WholeJob(env, FirstHints(env, jobs), jobs))
    ensures env.ipHints == map[] && !HintLeads(env, jobs) ==>
      ProcessJobs(env, START, jobs) != ProcessJob(env, START, WholeJob(env, FirstHints(env, jobs), jobs))
  {
    hide Stream, FirstHints, HintsAgree, HintedBy, ProcessJob, ProcessJobs, WholeJob, FromPackets,
         PositiveEpochs, SmallGaps, SweepsInOrder;
    WindowingTransparent(env, FirstHints(env, jobs), jobs);
    if HintLeads(env, jobs) {
      OwnHintsAgree(env, jobs);
    } else if env.ipHints == map[] {
      var i: nat, p :| i < |jobs| && p in jobs[i].parsed.packetEvents && p.protocol.Tcp?
        && HintedBy(env, jobs, |jobs|, p.Flow()) && !HintedBy(env, jobs, i + 1, p.Flow());
      var m :| 0 <= m < |jobs[i].parsed.packetEvents| && jobs[i].parsed.packetEvents[m] == p;
      LeadsIfAgree(env, jobs, i, m);
    }
  }
}
