/**
 What names a row of the session table.  A row keeps the interface, flow, domain,
 vendor and first-seen time of the first life of its key that reached the table;
 over capture windows these are the columns of the one session of that key in
 the unswept merge of all packets.
 */
module TableNames {
  import opened Model
  import opened Keys
  import opened Tracker
  import opened Indexes
  import opened Windowing
  import opened Store
  import opened Writer

  // ---- a live session keeps its names ----------------------------------------

  /** The same session later: nothing that names it has changed. */
  predicate SameSession(s: SessionView, s': SessionView) {
    s'.id == s.id && s'.firstSeen == s.firstSeen
  }

  lemma StepKeepsSession(env: Env, hints: map<FlowKey, string>, st: State, evt: PacketEvent, k: string)
    requires PlainEnv(env) && PlainPacket(evt) && Inv(st) && Unshared(st) && k in st.sessions
    ensures k in Step(env, hints, st, evt).sessions
    ensures SameSession(st.sessions[k], Step(env, hints, st, evt).sessions[k])
  {
    hide LookupHint, SessionKeyText, Inv, Unshared, LogsAfter;
    if Registers(env, hints, st, evt) {
      RegisterKeepsUnshared(env, st, evt, LookupHint(env, hints, evt));
    }
  }

  lemma {:induction false} MergedKeepsSession(env: Env, stream: seq<Told>, n: nat, m: nat, k: string)
    requires n <= m <= |stream| && PlainEnv(env) && PositiveEpochs(stream) && k in Merged(env, stream, n).sessions
    ensures k in Merged(env, stream, m).sessions
    ensures SameSession(Merged(env, stream, n).sessions[k], Merged(env, stream, m).sessions[k])
  {
    hide Merged, Step, Inv, Unshared, Fresh;
    if n < m {
      MergedKeepsSession(env, stream, n, m - 1, k);
      MergedGood(env, stream, m - 1);
      MergedNext(env, stream, m - 1);
      var x := stream[m - 1];
      StepKeepsSession(env.With(x.matcher), x.hints, Merged(env, stream, m - 1), x.evt, k);
    }
  }

  lemma WholeMerged(env: Env, stream: seq<Told>)
    ensures Merged(env, stream, |stream|) == Unswept(env, stream)
  {
    assert stream[..|stream|] == stream;
  }

  /** The session of a key that the first `n` windows leave behind, live or swept, is the one of the whole merge. */
  lemma {:induction false} LeftBehind(env: Env, jobs: seq<Job>, n: nat, k: string)
    requires PlainEnv(env) && PositiveEpochs(Stream(jobs)) && SmallGaps(env, Stream(jobs)) && SweepsInOrder(jobs)
    requires 0 < n <= |jobs|
    ensures var o, u := ProcessJobs(env, START, jobs[..n]), Unswept(env, Stream(jobs));
      && (k in o.live.sessions ==> k in u.sessions && SameSession(o.live.sessions[k], u.sessions[k]))
      && (k in o.expired ==> k in u.sessions && SameSession(o.expired[k], u.sessions[k]))
  {
    hide Merged, SmallGaps, SweepsInOrder, ProcessJobs, Stream, Idle;
    WindowsSoFar(env, jobs, n);
    var a, stream := |Stream(jobs[..n])|, Stream(jobs);
    if k in Merged(env, stream, a).sessions {
      MergedKeepsSession(env, stream, a, |stream|, k);
    }
    WholeMerged(env, stream);
  }

  // ---- what a new row is named by --------------------------------------------

  lemma {:induction false} FirstSender(log: seq<Batch>, key: string) returns (n: nat)
    requires SentIn(log, key)
    ensures FirstSent(log, key, n)
  {
    hide KeysIn;
    var last := |log| - 1;
    if SentIn(log[..last], key) {
      n := FirstSender(log[..last], key);
    } else {
      n := last;
      assert forall m | 0 <= m < last :: log[..last][m] == log[m];
    }
  }

  /** The session of a key after a job: live, or the last one swept. */
  ghost predicate NamedAfter(r: Row, o: Outcome, key: string) {
    || (key in o.live.sessions && Names(r, o.live.sessions[key]))
    || (key !in o.live.sessions && key in o.expired && Names(r, o.expired[key]))
  }

  /** A row sent for a job is of a session as the job leaves it. */
  lemma SentIsLeft(env: Env, jobs: seq<Job>, n: nat, b: Batch, r: Row, key: string)
    requires n < |jobs| && SentFor(env, ProcessJobs(env, START, jobs[..n]).live, jobs[n], b.sent + b.unsent)
    requires NamedIn(r, key, b.sent)
    ensures NamedAfter(r, ProcessJobs(env, START, jobs[..n + 1]), key)
  {
    hide Merge, Sweep, Expired, Names, TouchedBy;
    assert jobs[..n + 1][..n] == jobs[..n];
    var s :| s in b.sent && s.id.sessionKey == key && Names(r, s);
    var i :| 0 <= i < |b.sent| && b.sent[i] == s;
    assert (b.sent + b.unsent)[i] == s;
  }

  /**
   Over capture windows every row of a table written from empty, refused
   statements or not, carries the interface, flow, domain, vendor and first-seen
   time of the session of its key in the unswept merge of all packets.
   */
  lemma {:induction false} RowsNameStream(env: Env, ids: seq<int>, jobs: seq<Job>, t: Table, log: seq<Batch>,
                                          accepts: (nat, nat) -> bool, key: string)
    requires PlainEnv(env) && PositiveEpochs(Stream(jobs)) && SmallGaps(env, Stream(jobs)) && SweepsInOrder(jobs)
    requires Logged(env, EMPTY, jobs, log, accepts) && AllIntroduced(map[], t, ids, log) && key in t
    ensures var u := Unswept(env, Stream(jobs));
      && key in u.sessions
      && t[key].iface == u.sessions[key].id.iface && t[key].flow == u.sessions[key].id.flow
      && t[key].domain == u.sessions[key].id.domain && t[key].vendor == u.sessions[key].id.vendor
      && t[key].firstSeen == u.sessions[key].firstSeen
  {
    hide Unswept, Stream, SmallGaps, SweepsInOrder, PositiveEpochs, ProcessJobs, SentFor, NamedIn, FirstSent, KeysIn;
    assert Introduced(map[], t, ids, log, key);
    var n := FirstSender(log, key);
    FirstInLog(log, key, n);
    assert LoggedAt(env, EMPTY, jobs, n, log[n], accepts);
    SentIsLeft(env, jobs, n, log[n], t[key], key);
    LeftBehind(env, jobs, n + 1, key);
  }

  lemma FirstInLog(log: seq<Batch>, key: string, n: nat)
    requires FirstSent(log, key, n)
    ensures n < |log|
  {
  }

  // ---- the first life of a key ------------------------------------------------

  ghost predicate PlainJobs(jobs: seq<Job>) {
    forall i | 0 <= i < |jobs| :: forall p <- jobs[i].parsed.packetEvents :: PlainPacket(p)
  }

  lemma {:induction false} JobsKeepInv(env: Env, jobs: seq<Job>)
    requires PlainEnv(env) && PlainJobs(jobs)
    ensures Inv(ProcessJobs(env, START, jobs).live)
  {
    hide Inv, Merge, Sweep, Expired;
    if jobs == [] {
      EmptyInv();
    } else {
      var init, w := jobs[..|jobs| - 1], jobs[|jobs| - 1];
      assert forall i | 0 <= i < |init| :: init[i] == jobs[i];
      JobsKeepInv(env, init);
      var st := ProcessJobs(env, START, init).live;
      MergeKeepsInv(env.With(w.matcher), w.parsed.payloadHints, st, w.parsed.packetEvents);
      SweepKeepsInv(env, MergeJob(env, st, w), w.SweepEpoch());
    }
  }

  lemma EmptyInv()
    ensures Inv(EMPTY)
  {
  }

  predicate Unknown(o: Outcome, key: string) {
    key !in o.live.sessions && key !in o.expired
  }

  /** A job whose rows all reached the table, none of them with the key, leaves an unknown key unknown. */
  lemma JobLeavesUnknown(env: Env, jobs: seq<Job>, m: nat, b: Batch, key: string)
    requires PlainEnv(env) && PlainJobs(jobs) && m < |jobs|
    requires SentFor(env, ProcessJobs(env, START, jobs[..m]).live, jobs[m], b.sent + b.unsent) && b.unsent == []
    requires key !in KeysIn(b.sent) && Unknown(ProcessJobs(env, START, jobs[..m]), key)
    ensures Unknown(ProcessJobs(env, START, jobs[..m + 1]), key)
  {
    hide Inv, Merge, Sweep, Expired, SentFor, KeysIn;
    assert jobs[..m + 1][..m] == jobs[..m] && b.sent + b.unsent == b.sent;
    JobsKeepInv(env, jobs[..m]);
    RowsOfJob(env, ProcessJobs(env, START, jobs[..m]).live, jobs[m], b.sent);
  }

  lemma {:induction false} UnknownUntilSent(env: Env, jobs: seq<Job>, log: seq<Batch>, accepts: (nat, nat) -> bool,
                                            key: string, n: nat, m: nat)
    requires PlainEnv(env) && PlainJobs(jobs) && Logged(env, EMPTY, jobs, log, accepts)
    requires (forall i | 0 <= i < |log| :: log[i].unsent == []) && FirstSent(log, key, n) && m <= n
    ensures Unknown(ProcessJobs(env, START, jobs[..m]), key)
  {
    hide ProcessJob, SentFor, KeysIn;
    if m > 0 {
      UnknownUntilSent(env, jobs, log, accepts, key, n, m - 1);
      assert LoggedAt(env, EMPTY, jobs, m - 1, log[m - 1], accepts);
      JobLeavesUnknown(env, jobs, m - 1, log[m - 1], key);
    }
  }

  /**
   When every statement was accepted, a row of a table written from empty is named
   by the first life of its key: the session that the first job to know the key
   leaves behind.
   */
  lemma {:induction false} RowsNameFirstLife(env: Env, ids: seq<int>, jobs: seq<Job>, t: Table, log: seq<Batch>,
                                             accepts: (nat, nat) -> bool, key: string) returns (n: nat)
    requires PlainEnv(env) && PlainJobs(jobs) && Logged(env, EMPTY, jobs, log, accepts)
    requires (forall i | 0 <= i < |log| :: log[i].unsent == []) && AllIntroduced(map[], t, ids, log) && key in t
    ensures n < |jobs| && NamedAfter(t[key], ProcessJobs(env, START, jobs[..n + 1]), key)
    ensures forall m: nat | m <= n :: Unknown(ProcessJobs(env, START, jobs[..m]), key)
  {
    hide ProcessJobs, SentFor, NamedIn, FirstSent, KeysIn, NamedAfter, Unknown;
    assert Introduced(map[], t, ids, log, key);
    n := FirstSender(log, key);
    FirstInLog(log, key, n);
    assert LoggedAt(env, EMPTY, jobs, n, log[n], accepts);
    SentIsLeft(env, jobs, n, log[n], t[key], key);
    forall m: nat | m <= n ensures Unknown(ProcessJobs(env, START, jobs[..m]), key) {
      UnknownUntilSent(env, jobs, log, accepts, key, n, m);
    }
  }
}
