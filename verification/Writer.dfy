/**
 The writer: one parse result is merged, and the touched and the swept sessions
 are upserted.  After any number of results, accepted or refused, the session
 table shows every session of memory and a closed row for every session swept,
 except those whose last rows a refused statement kept out.
 */
module Writer {
  import opened Model
  import opened Keys
  import opened Tracker
  import opened Indexes
  import opened Windowing
  import opened Engine
  import opened Store

  /** Every live session's row shows its counters, last-seen time and status. */
  predicate Agreement(t: Table, st: State) {
    forall k <- st.sessions :: k in t && Shows(t[k], st.sessions[k])
  }

  /** Every session of the map has a closed row that shows it. */
  predicate ClosedRows(t: Table, expired: map<string, SessionView>) {
    forall k <- expired :: k in t && t[k].status == Closed && Shows(t[k], expired[k])
  }

  /** A live session that a merge did not touch was live before, and is unchanged. */
  lemma {:induction false} UntouchedByMerge(env: Env, hints: map<FlowKey, string>, st: State, evts: seq<PacketEvent>,
                                            k: string)
    requires PlainEnv(env) && Inv(st) && forall e <- evts :: PlainPacket(e)
    requires k in Merge(env, hints, st, evts).sessions && k !in Touched(env, hints, st, evts)
    ensures k in st.sessions && Merge(env, hints, st, evts).sessions[k] == st.sessions[k]
  {
    hide Step, Target, LookupHint, Inv;
    if evts != [] {
      var init, e := evts[..|evts| - 1], evts[|evts| - 1];
      assert e in evts && forall x <- init :: x in evts;
      MergeKeepsInv(env, hints, st, init);
      KeyNotEmpty(env, hints, Merge(env, hints, st, init), e, k);
      UntouchedSession(env, hints, Merge(env, hints, st, init), e, k);
      UntouchedByMerge(env, hints, st, init, k);
    }
  }

  lemma StepKeepsFlow(env: Env, hints: map<FlowKey, string>, st: State, e: PacketEvent, k: string)
    requires PlainEnv(env) && Inv(st) && PlainPacket(e) && k in st.sessions
    ensures k in Step(env, hints, st, e).sessions
    ensures Step(env, hints, st, e).sessions[k].id.flow == st.sessions[k].id.flow
  {
    hide LookupHint, SessionKeyText, LogsAfter, PrintedKey;
    if Registers(env, hints, st, e) {
      NewSessionPrinted(env, e, LookupHint(env, hints, e));
      if NewKey(env, e, LookupHint(env, hints, e)) == k {
        SameKeySameFlow(st.sessions[k].id, NewSession(env, e, LookupHint(env, hints, e)).id);
      }
    }
  }

  /** A touched session is live after the merge, and a TCP packet of its connection was among those merged. */
  lemma {:induction false} TouchedByPacket(env: Env, hints: map<FlowKey, string>, st: State, evts: seq<PacketEvent>,
                                           k: string)
    requires PlainEnv(env) && Inv(st) && forall e <- evts :: PlainPacket(e)
    requires k in Touched(env, hints, st, evts)
    ensures k in Merge(env, hints, st, evts).sessions
    ensures exists e <- evts :: OnConnection(e, Merge(env, hints, st, evts).sessions[k].id.flow)
  {
    hide Step, Target, LookupHint, Inv, OnConnection;
    var init, e := evts[..|evts| - 1], evts[|evts| - 1];
    assert e in evts && forall x <- init :: x in evts;
    MergeKeepsInv(env, hints, st, init);
    if k in Touched(env, hints, st, init) {
      TouchedByPacket(env, hints, st, init, k);
      StepKeepsFlow(env, hints, Merge(env, hints, st, init), e, k);
    } else {
      TargetOnConnection(env, hints, Merge(env, hints, st, init), e, k);
    }
  }

  lemma TargetOnConnection(env: Env, hints: map<FlowKey, string>, st: State, e: PacketEvent, k: string)
    requires PlainEnv(env) && PlainPacket(e) && Inv(st) && Target(env, hints, st, e) == k != ""
    ensures k in Step(env, hints, st, e).sessions
    ensures OnConnection(e, Step(env, hints, st, e).sessions[k].id.flow)
  {
    hide Step;
    TargetOn(env, hints, st, e);
  }

  lemma KeyNotEmpty(env: Env, hints: map<FlowKey, string>, st: State, e: PacketEvent, k: string)
    requires PlainEnv(env) && Inv(st) && PlainPacket(e) && k in Step(env, hints, st, e).sessions
    ensures k != ""
  {
    StepKeepsInv(env, hints, st, e);
    hide Step, Mirrored, BindingsLive;
  }

  /** A session as memory has it, or swept and closed. */
  predicate Current(s: SessionView, after: State, expired: map<string, SessionView>) {
    var k := s.id.sessionKey;
    (k in after.sessions && s == after.sessions[k]) || (k in expired && s == expired[k])
  }

  /** What the rows sent for one job look like: touched or swept sessions, as they are after the sweep. */
  predicate Covers(rows: seq<SessionView>, touched: set<string>, after: State, expired: map<string, SessionView>) {
    && (forall i | 0 <= i < |rows| :: Current(rows[i], after, expired))
    && (forall k <- touched | k in after.sessions :: HasKey(rows, k))
    && (forall k <- expired :: HasKey(rows, k))
    && after.sessions.Keys !! expired.Keys
  }

  /** Upserting rows that cover the touched and the swept sessions restores agreement. */
  lemma {:induction false} UpsertAgrees(t: Table, job: int, rows: seq<SessionView>, touched: set<string>,
                     after: State, expired: map<string, SessionView>)
    requires Covers(rows, touched, after, expired)
    requires forall k <- after.sessions | k !in touched :: k in t && Shows(t[k], after.sessions[k])
    requires forall k <- expired :: expired[k].status == Closed
    ensures Agreement(UpsertAll(t, job, rows), after)
    ensures ClosedRows(UpsertAll(t, job, rows), expired)
  {
    var t' := UpsertAll(t, job, rows);
    forall k <- after.sessions ensures k in t' && Shows(t'[k], after.sessions[k]) {
      if HasKey(rows, k) {
        UpsertShows(t, job, rows, k, after.sessions[k]);
      } else {
        UpsertFrame(t, job, rows, k);
      }
    }
    forall k <- expired ensures k in t' && t'[k].status == Closed && Shows(t'[k], expired[k]) {
      UpsertShows(t, job, rows, k, expired[k]);
    }
  }

  /** The rows loaded at start-up agree with the table they came from. */
  lemma {:induction false} RestoreAgrees(t: Table, rows: seq<SessionView>)
    requires Restorable(rows)
    requires forall s <- rows :: s.id.sessionKey in t && Shows(t[s.id.sessionKey], s)
    ensures Agreement(t, Restore(EMPTY, rows))
  {
    RestoredSessions(rows);
    forall k <- Restore(EMPTY, rows).sessions ensures k in t && Shows(t[k], Restore(EMPTY, rows).sessions[k]) {
      var i :| 0 <= i < |rows| && rows[i].id.sessionKey == k;
      assert rows[i] in rows;
    }
  }

  /** The two lists handed to the upsert, after the sweep: a session in both is one object, already closed. */
  ghost predicate Handed(e: ParserEngine, objects: map<string, Session>, merged: State, epoch: real,
                         touched: set<string>, touchedRows: seq<Session>, expiredRows: seq<Session>)
    reads *
  {
    && e.Valid() && e.state == Sweep(e.env, merged, epoch)
    && objects.Keys == merged.sessions.Keys
    && (forall k <- e.sessions :: k in objects && e.sessions[k] == objects[k])
    && (forall s <- touchedRows :: s.id.sessionKey in objects && objects[s.id.sessionKey] == s)
    && (forall k <- touched | k in objects :: objects[k] in touchedRows)
    && IsExpired(expiredRows, Tracker.Expired(e.env, merged, epoch))
    && (forall s <- expiredRows :: Listed(s, objects))
  }

  lemma SweptOrLive(env: Env, merged: State, epoch: real)
    ensures Sweep(env, merged, epoch).sessions.Keys + Tracker.Expired(env, merged, epoch).Keys == merged.sessions.Keys
    ensures Sweep(env, merged, epoch).sessions.Keys !! Tracker.Expired(env, merged, epoch).Keys
  {
  }

  /** Each row is as its session now is: live and as in memory, or swept and closed. */
  lemma RowView(e: ParserEngine, objects: map<string, Session>, merged: State, epoch: real,
                touched: set<string>, touchedRows: seq<Session>, expiredRows: seq<Session>, s: Session)
    requires Handed(e, objects, merged, epoch, touched, touchedRows, expiredRows)
    requires s in touchedRows || s in expiredRows
    ensures s.Valid()
    ensures s.view.id == s.id && Current(s.view, e.state, Tracker.Expired(e.env, merged, epoch))
  {
    hide Sweep, Tracker.Expired;
    var k, expired := s.id.sessionKey, Tracker.Expired(e.env, merged, epoch);
    SweptOrLive(e.env, merged, epoch);
    if s !in expiredRows {
      NotExpired(e, objects, merged, epoch, touched, touchedRows, expiredRows, s);
      e.SameKeys();
      e.InState(k);
    }
  }

  /** A touched session that is not in the expired list is still live. */
  lemma NotExpired(e: ParserEngine, objects: map<string, Session>, merged: State, epoch: real,
                   touched: set<string>, touchedRows: seq<Session>, expiredRows: seq<Session>, s: Session)
    requires Handed(e, objects, merged, epoch, touched, touchedRows, expiredRows)
    requires s in touchedRows && s !in expiredRows
    ensures s.id.sessionKey in e.state.sessions
  {
    hide Sweep, Tracker.Expired, ParserEngine.Valid, Session.Valid;
    SweptOrLive(e.env, merged, epoch);
    ListedObject(objects, expiredRows, s.id.sessionKey);
  }

  lemma ListedObject(objects: map<string, Session>, list: seq<Session>, k: string)
    requires forall s <- list :: Listed(s, objects)
    ensures HasSession(list, k) ==> k in objects && objects[k] in list
  {
    if HasSession(list, k) {
      var i :| 0 <= i < |list| && list[i].id.sessionKey == k;
      assert Listed(list[i], objects);
    }
  }

  /** Every row is of a session as it now is: live and as in memory, or swept and closed. */
  lemma RowsCurrent(e: ParserEngine, objects: map<string, Session>, merged: State, epoch: real,
                    touched: set<string>, touchedRows: seq<Session>, expiredRows: seq<Session>)
    requires Handed(e, objects, merged, epoch, touched, touchedRows, expiredRows)
    ensures forall s <- touchedRows + expiredRows :: s.Valid()
    ensures forall s <- touchedRows + expiredRows :: Current(s.view, e.state, Tracker.Expired(e.env, merged, epoch))
  {
    hide Sweep, Tracker.Expired, Handed, Session.Valid;
    forall s <- touchedRows + expiredRows
      ensures s.Valid() && Current(s.view, e.state, Tracker.Expired(e.env, merged, epoch))
    {
      RowView(e, objects, merged, epoch, touched, touchedRows, expiredRows, s);
    }
  }

  /** Touched sessions that are still live have a row, and so do all swept ones. */
  lemma RowsPresent(e: ParserEngine, objects: map<string, Session>, merged: State, epoch: real,
                    touched: set<string>, touchedRows: seq<Session>, expiredRows: seq<Session>)
    requires Handed(e, objects, merged, epoch, touched, touchedRows, expiredRows)
    requires forall s <- touchedRows + expiredRows :: s.Valid()
    ensures forall k <- touched | k in e.state.sessions :: HasKey(SessionViews(touchedRows + expiredRows), k)
    ensures forall k <- Tracker.Expired(e.env, merged, epoch) :: HasKey(SessionViews(touchedRows + expiredRows), k)
  {
    hide Sweep, Tracker.Expired, HasKey, SessionViews, Session.Valid;
    var all := touchedRows + expiredRows;
    forall k <- touched | k in e.state.sessions ensures HasKey(SessionViews(all), k) {
      e.SameKeys();
      e.InState(k);
      RowAt(all, objects[k]);
    }
    forall k <- Tracker.Expired(e.env, merged, epoch) ensures HasKey(SessionViews(all), k) {
      var i :| 0 <= i < |expiredRows| && expiredRows[i].id.sessionKey == k;
      RowAt(all, expiredRows[i]);
    }
  }

  lemma RowsCover(e: ParserEngine, objects: map<string, Session>, merged: State, epoch: real,
                  touched: set<string>, touchedRows: seq<Session>, expiredRows: seq<Session>)
    requires Handed(e, objects, merged, epoch, touched, touchedRows, expiredRows)
    ensures forall s <- touchedRows + expiredRows :: s.Valid()
    ensures Covers(SessionViews(touchedRows + expiredRows), touched, e.state, Tracker.Expired(e.env, merged, epoch))
  {
    hide Sweep, Tracker.Expired, HasKey, Session.Valid, ParserEngine.Valid, IsExpired, Listed;
    var all := touchedRows + expiredRows;
    RowsCurrent(e, objects, merged, epoch, touched, touchedRows, expiredRows);
    RowsPresent(e, objects, merged, epoch, touched, touchedRows, expiredRows);
    SweptOrLive(e.env, merged, epoch);
    forall i | 0 <= i < |all| ensures Current(SessionViews(all)[i], e.state, Tracker.Expired(e.env, merged, epoch)) {
      assert all[i] in all;
    }
  }

  lemma RowAt(all: seq<Session>, s: Session)
    requires s in all && forall t <- all :: t.Valid()
    ensures HasKey(SessionViews(all), s.id.sessionKey)
  {
    var i :| 0 <= i < |all| && all[i] == s;
    assert SessionViews(all)[i].id.sessionKey == s.id.sessionKey;
  }

  /** The keys of the sessions a job's merge applies packets to. */
  function TouchedBy(env: Env, st: State, job: Job): set<string> {
    Touched(env.With(job.matcher), job.parsed.payloadHints, st, job.parsed.packetEvents)
  }

  lemma {:induction false} AgreementRestored(env: Env, st: State, job: Job, jobID: int, before: Table,
                                             views: seq<SessionView>, touched: set<string>)
    requires PlainEnv(env) && Inv(st) && forall e <- job.parsed.packetEvents :: PlainPacket(e)
    requires touched == TouchedBy(env, st, job)
    requires var merged := MergeJob(env, st, job);
      Covers(views, touched, Sweep(env, merged, job.SweepEpoch()), Tracker.Expired(env, merged, job.SweepEpoch()))
    ensures var merged := MergeJob(env, st, job);
      Agreement(before, st) ==>
        && Agreement(UpsertAll(before, jobID, views), Sweep(env, merged, job.SweepEpoch()))
        && ClosedRows(UpsertAll(before, jobID, views), Tracker.Expired(env, merged, job.SweepEpoch()))
  {
    hide Inv, Merge, Touched, UpsertAll, Covers;
    if Agreement(before, st) {
      var merged := MergeJob(env, st, job);
      var after, expired := Sweep(env, merged, job.SweepEpoch()), Tracker.Expired(env, merged, job.SweepEpoch());
      forall k <- after.sessions | k !in touched ensures k in before && Shows(before[k], after.sessions[k]) {
        UntouchedByMerge(env.With(job.matcher), job.parsed.payloadHints, st, job.parsed.packetEvents, k);
      }
      UpsertAgrees(before, jobID, views, touched, after, expired);
    }
  }

  /** The rows sent for a job that finds the state `st`: touched or swept sessions, as they are after the sweep. */
  ghost predicate SentFor(env: Env, st: State, job: Job, rows: seq<SessionView>) {
    var merged := MergeJob(env, st, job);
    Covers(rows, TouchedBy(env, st, job),
           Sweep(env, merged, job.SweepEpoch()), Tracker.Expired(env, merged, job.SweepEpoch()))
  }

  // ---- any number of jobs ---------------------------------------------------

  /** The rows handed to one upsert: those that reached the table, and those a refused statement kept out. */
  datatype Batch = Batch(sent: seq<SessionView>, unsent: seq<SessionView>)

  function KeysIn(rows: seq<SessionView>): set<string> {
    set s | s in rows :: s.id.sessionKey
  }

  /** The keys whose last row did not reach the table. */
  function Stale(log: seq<Batch>): set<string> {
    if log == [] then {}
    else Stale(log[..|log| - 1]) + KeysIn(log[|log| - 1].unsent) - KeysIn(log[|log| - 1].sent)
  }

  /** When every statement was accepted, no key is stale. */
  lemma {:induction false} NothingStale(log: seq<Batch>)
    requires forall i | 0 <= i < |log| :: log[i].unsent == []
    ensures Stale(log) == {}
  {
    if log != [] {
      NothingStale(log[..|log| - 1]);
    }
  }

  /**
   The table shows the outcome outside the stale keys, and has no other rows
   than those it had and those of the outcome.
   */
  ghost predicate WrittenThrough(t: Table, o: Outcome, stale: set<string>, base: set<string>) {
    && (forall k <- o.live.sessions | k !in stale :: k in t && Shows(t[k], o.live.sessions[k]))
    && (forall k <- o.expired | k !in o.live.sessions && k !in stale ::
          k in t && t[k].status == Closed && Shows(t[k], o.expired[k]))
    && base <= t.Keys <= base + o.live.sessions.Keys + o.expired.Keys
  }

  lemma HasKeyIn(rows: seq<SessionView>, k: string)
    ensures HasKey(rows, k) <==> k in KeysIn(rows)
  {
    if k in KeysIn(rows) {
      var s :| s in rows && s.id.sessionKey == k;
      var i :| 0 <= i < |rows| && rows[i] == s;
    }
    if HasKey(rows, k) {
      var i :| 0 <= i < |rows| && rows[i].id.sessionKey == k;
      assert rows[i] in rows;
    }
  }

  lemma {:induction false} UpsertKeys(t: Table, job: int, rows: seq<SessionView>)
    ensures UpsertAll(t, job, rows).Keys == t.Keys + KeysIn(rows)
  {
    if rows != [] {
      var init, s := rows[..|rows| - 1], rows[|rows| - 1];
      UpsertKeys(t, job, init);
      assert rows == init + [s];
      assert KeysIn(rows) == KeysIn(init) + {s.id.sessionKey};
    }
  }

  lemma {:induction false} MergeKeepsKeys(env: Env, hints: map<FlowKey, string>, st: State, evts: seq<PacketEvent>)
    ensures st.sessions.Keys <= Merge(env, hints, st, evts).sessions.Keys
  {
    if evts != [] {
      hide Touch, LookupHint, Target;
      MergeKeepsKeys(env, hints, st, evts[..|evts| - 1]);
    }
  }

  /** The rows of a job, and what of memory they leave out. */
  ghost predicate Rowed(st: State, after: State, expired: map<string, SessionView>, rows: seq<SessionView>) {
    && st.sessions.Keys <= after.sessions.Keys + expired.Keys
    && (forall s <- rows :: Current(s, after, expired))
    && (forall k <- after.sessions | k !in KeysIn(rows) :: k in st.sessions && after.sessions[k] == st.sessions[k])
    && expired.Keys <= KeysIn(rows)
    && (forall k <- expired :: expired[k].status == Closed)
    && after.sessions.Keys !! expired.Keys
  }

  lemma {:induction false} RowsOfJob(env: Env, st: State, job: Job, rows: seq<SessionView>)
    requires PlainEnv(env) && Inv(st) && forall e <- job.parsed.packetEvents :: PlainPacket(e)
    requires SentFor(env, st, job, rows)
    ensures var merged := MergeJob(env, st, job);
      Rowed(st, Sweep(env, merged, job.SweepEpoch()), Tracker.Expired(env, merged, job.SweepEpoch()), rows)
  {
    hide Merge, Inv, Touched, HasKey, KeysIn;
    var e, evts, hints := env.With(job.matcher), job.parsed.packetEvents, job.parsed.payloadHints;
    var merged := MergeJob(env, st, job);
    var after, expired := Sweep(env, merged, job.SweepEpoch()), Tracker.Expired(env, merged, job.SweepEpoch());
    MergeKeepsKeys(e, hints, st, evts);
    SweptOrLive(env, merged, job.SweepEpoch());
    forall s | s in rows ensures Current(s, after, expired) {
      var i :| 0 <= i < |rows| && rows[i] == s;
    }
    forall k <- after.sessions | k !in KeysIn(rows) ensures k in st.sessions && after.sessions[k] == st.sessions[k] {
      HasKeyIn(rows, k);
      UntouchedByMerge(e, hints, st, evts, k);
    }
    forall k <- expired ensures k in KeysIn(rows) {
      HasKeyIn(rows, k);
    }
  }

  /** One job, accepted or refused. */
  lemma {:induction false} JobWritten(t: Table, jobID: int, o: Outcome, after: State, expired: map<string, SessionView>,
                    b: Batch, stale: set<string>, base: set<string>)
    requires Rowed(o.live, after, expired, b.sent + b.unsent) && WrittenThrough(t, o, stale, base)
    ensures WrittenThrough(UpsertAll(t, jobID, b.sent), Outcome(after, o.expired + expired),
                           stale + KeysIn(b.unsent) - KeysIn(b.sent), base)
  {
    hide UpsertAll, Shows, HasKey, KeysIn;
    var t', stale' := UpsertAll(t, jobID, b.sent), stale + KeysIn(b.unsent) - KeysIn(b.sent);
    UpsertKeys(t, jobID, b.sent);
    SentKeys(o.live, after, expired, b);
    forall k <- after.sessions | k !in stale' ensures k in t' && Shows(t'[k], after.sessions[k]) {
      HasKeyIn(b.sent, k);
      if k in KeysIn(b.sent) {
        SentShows(t, jobID, b.sent, k, after.sessions[k]);
      } else {
        UpsertFrame(t, jobID, b.sent, k);
      }
    }
    var all := o.expired + expired;
    forall k <- all | k !in after.sessions && k !in stale'
      ensures k in t' && t'[k].status == Closed && Shows(t'[k], all[k])
    {
      HasKeyIn(b.sent, k);
      if k in KeysIn(b.sent) {
        SentShows(t, jobID, b.sent, k, expired[k]);
      } else {
        UpsertFrame(t, jobID, b.sent, k);
      }
    }
  }

  lemma SentKeys(st: State, after: State, expired: map<string, SessionView>, b: Batch)
    requires Rowed(st, after, expired, b.sent + b.unsent)
    ensures KeysIn(b.sent + b.unsent) == KeysIn(b.sent) + KeysIn(b.unsent)
    ensures KeysIn(b.sent) + KeysIn(b.unsent) <= after.sessions.Keys + expired.Keys
    ensures forall s <- b.sent :: var k := s.id.sessionKey;
      (k in after.sessions ==> s == after.sessions[k]) && (k in expired ==> s == expired[k])
  {
    assert forall s <- b.sent :: s in b.sent + b.unsent;
  }

  lemma {:induction false} SentShows(t: Table, job: int, sent: seq<SessionView>, k: string, s: SessionView)
    requires forall x <- sent | x.id.sessionKey == k :: x == s
    requires k in KeysIn(sent)
    ensures k in UpsertAll(t, job, sent) && Shows(UpsertAll(t, job, sent)[k], s)
    ensures UpsertAll(t, job, sent)[k].status == s.status
  {
    HasKeyIn(sent, k);
    UpsertShows(t, job, sent, k, s);
  }

  /** `n` rows went in before a refused statement. */
  predicate CutAt(n: nat, accepts: nat -> bool) {
    n % 200 == 0 && !accepts(n / 200)
  }

  /** What one round of the loop leaves behind. */
  ghost predicate Logged(env: Env, start: State, jobs: seq<Job>, log: seq<Batch>, accepts: (nat, nat) -> bool) {
    && |log| == |jobs|
    && forall i | 0 <= i < |jobs| :: LoggedAt(env, start, jobs, i, log[i], accepts)
  }

  ghost predicate LoggedAt(env: Env, start: State, jobs: seq<Job>, i: nat, b: Batch, accepts: (nat, nat) -> bool)
    requires i < |jobs|
  {
    && SentFor(env, ProcessJobs(env, Outcome(start, map[]), jobs[..i]).live, jobs[i], b.sent + b.unsent)
    && (b.unsent != [] ==> |b.sent| % 200 == 0 && !accepts(i, |b.sent| / 200))
  }

  lemma {:induction false} LogGrows(env: Env, start: State, jobs: seq<Job>, log: seq<Batch>, b: Batch,
                                    accepts: (nat, nat) -> bool)
    requires jobs != [] && Logged(env, start, jobs[..|jobs| - 1], log, accepts)
    requires LoggedAt(env, start, jobs, |jobs| - 1, b, accepts)
    ensures Logged(env, start, jobs, log + [b], accepts)
  {
    hide SentFor, ProcessJobs;
    var init, log' := jobs[..|jobs| - 1], log + [b];
    forall i | 0 <= i < |jobs| ensures LoggedAt(env, start, jobs, i, log'[i], accepts) {
      if i < |init| {
        assert LoggedAt(env, start, init, i, log[i], accepts);
        assert init[..i] == jobs[..i] && init[i] == jobs[i];
      }
    }
  }

  lemma NothingWritten(t: Table, st: State)
    requires Agreement(t, st)
    ensures WrittenThrough(t, Outcome(st, map[]), {}, t.Keys)
  {
  }

  lemma {:induction false} NextWritten(env: Env, t: Table, jobID: int, o: Outcome, job: Job, b: Batch,
                                       stale: set<string>, base: set<string>)
    requires PlainEnv(env) && Inv(o.live) && forall e <- job.parsed.packetEvents :: PlainPacket(e)
    requires SentFor(env, o.live, job, b.sent + b.unsent) && WrittenThrough(t, o, stale, base)
    ensures WrittenThrough(UpsertAll(t, jobID, b.sent), ProcessJob(env, o, job),
                           stale + KeysIn(b.unsent) - KeysIn(b.sent), base)
  {
    hide Inv, Merge, Sweep, Tracker.Expired, UpsertAll, WrittenThrough, SentFor, Rowed, KeysIn;
    RowsOfJob(env, o.live, job, b.sent + b.unsent);
    var merged := MergeJob(env, o.live, job);
    JobWritten(t, jobID, o, Sweep(env, merged, job.SweepEpoch()), Tracker.Expired(env, merged, job.SweepEpoch()), b,
               stale, base);
  }

  // ---- which rows name a key ------------------------------------------------

  predicate SentIn(log: seq<Batch>, key: string) {
    exists m | 0 <= m < |log| :: key in KeysIn(log[m].sent)
  }

  /** The n-th batch is the first to send the key. */
  predicate FirstSent(log: seq<Batch>, key: string, n: nat) {
    n < |log| && key in KeysIn(log[n].sent) && forall m | 0 <= m < n :: key !in KeysIn(log[m].sent)
  }

  /** The n-th batch is the last to send the key. */
  predicate LastSent(log: seq<Batch>, key: string, n: nat) {
    n < |log| && key in KeysIn(log[n].sent) && forall m | n < m < |log| :: key !in KeysIn(log[m].sent)
  }

  predicate NamedIn(r: Row, key: string, rows: seq<SessionView>) {
    exists s <- rows :: s.id.sessionKey == key && Names(r, s)
  }

  /**
   What names a row: an old row keeps its columns, a new one has those of the
   first batch that sent its key.  Its job is the last one that sent it.
   */
  ghost predicate Introduced(before: Table, t: Table, ids: seq<int>, log: seq<Batch>, key: string) {
    && |ids| == |log|
    && (key in t <==> key in before || SentIn(log, key))
    && (key in before ==> key in t && SameNames(t[key], before[key]))
    && (forall n: nat | key !in before && FirstSent(log, key, n) :: key in t && NamedIn(t[key], key, log[n].sent))
    && (forall n: nat | LastSent(log, key, n) :: key in t && t[key].captureJobId == ids[n])
  }

  /** Every row is so introduced. */
  ghost predicate AllIntroduced(before: Table, t: Table, ids: seq<int>, log: seq<Batch>) {
    forall key: string :: Introduced(before, t, ids, log, key)
  }

  lemma KeyAt(rows: seq<SessionView>, key: string) returns (i: nat, j: nat)
    requires key in KeysIn(rows)
    ensures FirstWith(rows, key, i) && LastWith(rows, key, j)
  {
    HasKeyIn(rows, key);
    var k :| 0 <= k < |rows| && rows[k].id.sessionKey == key;
    i, j := k, k;
    while exists m :: 0 <= m < i && rows[m].id.sessionKey == key
      invariant i < |rows| && rows[i].id.sessionKey == key
      decreases i
    {
      var m :| 0 <= m < i && rows[m].id.sessionKey == key;
      i := m;
    }
    while exists m :: j < m < |rows| && rows[m].id.sessionKey == key
      invariant j < |rows| && rows[j].id.sessionKey == key
      decreases |rows| - j
    {
      var m :| j < m < |rows| && rows[m].id.sessionKey == key;
      j := m;
    }
  }

  /** What one more batch does to a row. */
  lemma BatchNames(t: Table, jobID: int, rows: seq<SessionView>, key: string)
    ensures var t' := UpsertAll(t, jobID, rows);
      && (key in t' <==> key in t || key in KeysIn(rows))
      && (key in t ==> SameNames(t'[key], t[key]))
      && (key !in t && key in KeysIn(rows) ==> NamedIn(t'[key], key, rows))
      && (key in KeysIn(rows) ==> t'[key].captureJobId == jobID)
      && (key in t && key !in KeysIn(rows) ==> t'[key] == t[key])
  {
    hide UpsertAll, Names, SameNames;
    UpsertKeys(t, jobID, rows);
    HasKeyIn(rows, key);
    if key in KeysIn(rows) {
      var i, j := KeyAt(rows, key);
      ShowsLast(t, jobID, rows, key, j);
      if key !in t {
        NamedByFirst(t, jobID, rows, key, i);
        assert rows[i] in rows;
      }
    } else {
      UpsertFrame(t, jobID, rows, key);
    }
    if key in t {
      KeepsNames(t, jobID, rows, key);
    }
  }

  lemma SentSnoc(log: seq<Batch>, b: Batch, key: string)
    ensures SentIn(log + [b], key) <==> SentIn(log, key) || key in KeysIn(b.sent)
    ensures forall n: nat | FirstSent(log + [b], key, n) ::
              if n == |log| then !SentIn(log, key) && key in KeysIn(b.sent) else FirstSent(log, key, n)
    ensures forall n: nat | LastSent(log + [b], key, n) ::
              if n == |log| then key in KeysIn(b.sent) else LastSent(log, key, n) && key !in KeysIn(b.sent)
  {
    hide KeysIn;
    var log' := log + [b];
    assert log'[|log|] == b && forall m | 0 <= m < |log| :: log'[m] == log[m];
    assert FirstSent(log', key, |log|) ==> forall m | 0 <= m < |log| :: key !in KeysIn(log'[m].sent);
  }

  lemma StillNamed(r: Row, q: Row, key: string, rows: seq<SessionView>)
    requires SameNames(r, q) && NamedIn(q, key, rows)
    ensures NamedIn(r, key, rows)
  {
    var s :| s in rows && s.id.sessionKey == key && Names(q, s);
    NamesTwice(r, q, s);
  }

  lemma NextIntroduced(before: Table, t: Table, ids: seq<int>, log: seq<Batch>, key: string, jobID: int, b: Batch)
    requires Introduced(before, t, ids, log, key)
    ensures Introduced(before, UpsertAll(t, jobID, b.sent), ids + [jobID], log + [b], key)
  {
    hide UpsertAll, KeysIn, NamedIn;
    var t', log' := UpsertAll(t, jobID, b.sent), log + [b];
    BatchNames(t, jobID, b.sent, key);
    SentSnoc(log, b, key);
    forall n: nat | key !in before && FirstSent(log', key, n) ensures key in t' && NamedIn(t'[key], key, log'[n].sent) {
      if n < |log| {
        assert SentIn(log, key);
        StillNamed(t'[key], t[key], key, log[n].sent);
      }
    }
    forall n: nat | LastSent(log', key, n) ensures key in t' && t'[key].captureJobId == (ids + [jobID])[n] {
      if n < |log| {
        assert SentIn(log, key);
      }
    }
  }

  lemma NothingIntroduced(t: Table)
    ensures AllIntroduced(t, t, [], [])
  {
  }

  lemma NextAllIntroduced(before: Table, t: Table, ids: seq<int>, log: seq<Batch>, jobID: int, b: Batch)
    requires AllIntroduced(before, t, ids, log)
    ensures AllIntroduced(before, UpsertAll(t, jobID, b.sent), ids + [jobID], log + [b])
  {
    hide Introduced, UpsertAll;
    forall key: string ensures Introduced(before, UpsertAll(t, jobID, b.sent), ids + [jobID], log + [b], key) {
      NextIntroduced(before, t, ids, log, key, jobID, b);
    }
  }

  /** What a session of the unswept merge looks like after a sweep. */
  ghost function Final(env: Env, s: SessionView, epoch: real): SessionView {
    if Idle(env, s, epoch) then Expire(s) else s
  }

  /**
   Over capture windows, a table that the loop has written from empty shows
   every session of the unswept merge of all packets, closed if the last sweep
   finds it idle, and nothing else.
   */
  lemma {:induction false} TableShowsStream(env: Env, jobs: seq<Job>, t: Table, stale: set<string>)
    requires jobs != [] && PlainEnv(env)
    requires PositiveEpochs(Stream(jobs)) && SmallGaps(env, Stream(jobs)) && SweepsInOrder(jobs)
    requires WrittenThrough(t, ProcessJobs(env, START, jobs), stale, {})
    ensures var u, epoch := Unswept(env, Stream(jobs)), jobs[|jobs| - 1].SweepEpoch();
      && t.Keys <= u.sessions.Keys
      && forall k <- u.sessions | k !in stale :: k in t && Shows(t[k], Final(env, u.sessions[k], epoch))
  {
    hide Unswept, Stream, SmallGaps, SweepsInOrder, Shows, ProcessJobs, Idle;
    WindowsAreUnswept(env, jobs);
    var u, epoch := Unswept(env, Stream(jobs)), jobs[|jobs| - 1].SweepEpoch();
    SweptOrLive(env, u, epoch);
    assert ProcessJobs(env, START, jobs).live == Sweep(env, u, epoch);
    forall k <- u.sessions | k !in stale ensures k in t && Shows(t[k], Final(env, u.sessions[k], epoch)) {
    }
  }

  /** The matcher in force has no part in a sweep. */
  lemma MatcherAside(env: Env, matcher: Matcher, st: State, epoch: real)
    ensures Sweep(env.With(matcher), st, epoch) == Sweep(env, st, epoch)
    ensures Tracker.Expired(env.With(matcher), st, epoch) == Tracker.Expired(env, st, epoch)
  {
    hide CloseAll;
    var a, b := Sweep(env.With(matcher), st, epoch), Sweep(env, st, epoch);
    assert IdleKeys(env.With(matcher), st, epoch) == IdleKeys(env, st, epoch);
    assert a.flowMap == b.flowMap && a.revMap == b.revMap;
  }

  /** What a job is sent as does not depend on the matcher that was in force before it. */
  lemma SentAside(env: Env, matcher: Matcher, st: State, job: Job, rows: seq<SessionView>)
    ensures SentFor(env.With(matcher), st, job, rows) == SentFor(env, st, job, rows)
    ensures Sweep(env.With(matcher), MergeJob(env.With(matcher), st, job), job.SweepEpoch())
         == Sweep(env, MergeJob(env, st, job), job.SweepEpoch())
  {
    hide Merge, Touched, Sweep, Tracker.Expired, Covers;
    assert env.With(matcher).With(job.matcher) == env.With(job.matcher);
    MatcherAside(env, matcher, MergeJob(env, st, job), job.SweepEpoch());
  }

  class WriterDaemon {
    const engine: ParserEngine
    const store: SessionStore

    constructor (engine: ParserEngine, store: SessionStore)
      ensures this.engine == engine && this.store == store
    {
      this.engine, this.store := engine, store;
    }

    ghost predicate Ready()
      reads this, engine, engine.repr, store
    {
      engine.Valid() && store !in engine.repr && Inv(engine.state) && PlainEnv(engine.env)
    }

    ghost function Merged(st: State, job: Job): State
      reads this, engine
    {
      MergeJob(engine.env, st, job)
    }

    /** The sessions one job sweeps. */
    ghost function SweptBy(st: State, job: Job): map<string, SessionView>
      reads this, engine
    {
      Tracker.Expired(engine.env, Merged(st, job), job.SweepEpoch())
    }

    /** Merge, collect the touched sessions, sweep, and append the swept ones. */
    method MergeAndSweep(job: Job) returns (allRows: seq<Session>, ghost touched: set<string>)
      requires Ready() && engine.env.vendorOf == job.matcher
      requires forall e <- job.parsed.packetEvents :: PlainPacket(e)
      modifies engine, engine.repr
      ensures Ready() && fresh(engine.repr - old(engine.repr)) && engine.env == old(engine.env)
      ensures engine.state == Sweep(engine.env, Merged(old(engine.state), job), job.SweepEpoch())
      ensures touched == TouchedBy(engine.env, old(engine.state), job)
      ensures forall s <- allRows :: s.Valid()
      ensures Covers(SessionViews(allRows), touched, engine.state, SweptBy(old(engine.state), job))
    {
      hide Inv, Merge, Touched, Sweep, Tracker.Expired, Covers, ParserEngine.Valid;
      var touchedKeys, requestLogs := engine.MergeResult(job.parsed);
      touched := touchedKeys;
      ghost var merged, objects := engine.state, engine.sessions;
      engine.SameKeys();
      var touchedRows := engine.GetTouchedSessions(touchedKeys);
      var currentEpoch := job.parsed.lastEpoch;
      if currentEpoch == 0.0 {
        currentEpoch := job.wallClock;
      }
      var expiredRows := engine.ExpireIdleSessions(currentEpoch);
      SweepKeepsInv(engine.env, merged, currentEpoch);
      allRows := touchedRows + expiredRows;
      RowsCover(engine, objects, merged, currentEpoch, touched, touchedRows, expiredRows);
    }

    /**
     Processes one parse result.  Memory moves whether or not the upsert
     succeeds; `batch` tells which of the job's rows reached the table: all of
     them, or those of the statements before a refused one.  When all did, the
     table agrees with memory again and every session just swept has a closed row.
     */
    method ProcessResult(jobID: int, job: Job, accepts: nat -> bool) returns (ok: bool, ghost batch: Batch)
      requires Ready() && engine.env.vendorOf == job.matcher
      requires forall e <- job.parsed.packetEvents :: PlainPacket(e)
      modifies engine, engine.repr, store
      ensures Ready() && fresh(engine.repr - old(engine.repr)) && engine.env == old(engine.env)
      ensures engine.state == Sweep(engine.env, Merged(old(engine.state), job), job.SweepEpoch())
      ensures job.parsed.lastEpoch != 0.0 ==>
        engine.state == Sweep(engine.env, Merged(old(engine.state), job), job.parsed.lastEpoch)
      ensures job.parsed.lastEpoch == 0.0 ==>
        engine.state == Sweep(engine.env, Merged(old(engine.state), job), job.wallClock)
      ensures SentFor(engine.env, old(engine.state), job, batch.sent + batch.unsent)
      ensures store.apiLogs == UpsertAll(old(store.apiLogs), jobID, batch.sent)
      ensures if ok then batch.unsent == [] else batch.unsent != [] && CutAt(|batch.sent|, accepts)
      ensures old(Agreement(store.apiLogs, engine.state)) && ok ==>
        Agreement(store.apiLogs, engine.state) && ClosedRows(store.apiLogs, SweptBy(old(engine.state), job))
      ensures (forall b: nat :: accepts(b)) ==> ok
    {
      hide Inv, Merge, Touched, Sweep, Tracker.Expired, UpsertAll, Agreement, ClosedRows, Covers, ParserEngine.Valid;
      var allRows, touched := MergeAndSweep(job);
      ghost var rows, before := SessionViews(allRows), store.apiLogs;
      ghost var sent;
      ok, sent := store.UpsertSessions(jobID, allRows, accepts);
      assert SessionViews(allRows) == rows;
      batch := Batch(rows[..sent], rows[sent..]);
      assert batch.sent + batch.unsent == rows;
      if ok {
        assert rows[..sent] == rows;
        AgreementRestored(engine.env, old(engine.state), job, jobID, before, rows, touched);
      }
    }

    /**
     The loop over the results.  Before each of them the matcher may have been
     replaced.  A refused result is logged and the loop goes on.  Memory moves
     through all jobs, and outside the stale keys the table shows what became of
     every session.
     */
    method Run(ids: seq<int>, jobs: seq<Job>, accepts: (nat, nat) -> bool) returns (ghost log: seq<Batch>)
      requires Ready() && |ids| == |jobs|
      requires forall i | 0 <= i < |jobs| :: forall e <- jobs[i].parsed.packetEvents :: PlainPacket(e)
      modifies engine, engine.repr, store
      ensures Ready()
      ensures engine.state == ProcessJobs(old(engine.env), Outcome(old(engine.state), map[]), jobs).live
      ensures Logged(old(engine.env), old(engine.state), jobs, log, accepts)
      ensures old(Agreement(store.apiLogs, engine.state)) ==>
        WrittenThrough(store.apiLogs, ProcessJobs(old(engine.env), Outcome(old(engine.state), map[]), jobs),
                       Stale(log), old(store.apiLogs.Keys))
      ensures AllIntroduced(old(store.apiLogs), store.apiLogs, ids, log)
    {
      hide Inv, Merge, Sweep, Tracker.Expired, UpsertAll, Agreement, WrittenThrough, SentFor, ParserEngine.Valid,
           AllIntroduced;
      NothingIntroduced(store.apiLogs);
      log := [];
      ghost var env, start := engine.env, Outcome(engine.state, map[]);
      ghost var agreed := Agreement(store.apiLogs, engine.state);
      if agreed {
        NothingWritten(store.apiLogs, engine.state);
      }
      assert jobs[..0] == [];
      assert env.With(env.vendorOf) == env;
      for i := 0 to |jobs|
        invariant Ready() && fresh(engine.repr - old(engine.repr)) && engine.env == env.With(engine.env.vendorOf)
        invariant engine.state == ProcessJobs(env, start, jobs[..i]).live
        invariant Logged(env, start.live, jobs[..i], log, accepts)
        invariant AllIntroduced(old(store.apiLogs), store.apiLogs, ids[..i], log)
        invariant agreed ==>
          WrittenThrough(store.apiLogs, ProcessJobs(env, start, jobs[..i]), Stale(log), old(store.apiLogs.Keys))
      {
        ghost var before, was := store.apiLogs, ProcessJobs(env, start, jobs[..i]);
        engine.SetMatcher(jobs[i].matcher);
        var ok, batch := ProcessResult(ids[i], jobs[i], (b: nat) => accepts(i, b));
        SentAside(env, jobs[i].matcher, was.live, jobs[i], batch.sent + batch.unsent);
        assert jobs[..i + 1][..i] == jobs[..i];
        LogGrows(env, start.live, jobs[..i + 1], log, batch, accepts);
        if agreed {
          NextWritten(env, before, ids[i], was, jobs[i], batch, Stale(log), old(store.apiLogs.Keys));
        }
        NextAllIntroduced(old(store.apiLogs), before, ids[..i], log, ids[i], batch);
        assert ids[..i] + [ids[i]] == ids[..i + 1];
        assert (log + [batch])[..|log|] == log;
        log := log + [batch];
      }
      assert jobs[..|jobs|] == jobs && ids[..|jobs|] == ids;
    }
  }
}
