/**
 The session table: a multi-row upsert in batches of 200, where each batch is
 one statement that takes effect whole or not at all.
 */
module Store {
  import opened Model
  import opened Tracker
  import opened Indexes
  import opened Engine

  /** The columns of `api_logs` that the writer sends. */
  datatype Row = Row(
    captureJobId: int, iface: string, flow: FlowKey, firstSeen: TimeText, vendor: string, domain: string,
    uplinkBytes: int, downlinkBytes: int, totalBytes: int, requestCount: int, packetCount: int,
    lastSeen: TimeText, closedAt: TimeText, status: Status)

  type Table = map<string, Row>

  function NewRow(job: int, s: SessionView): Row {
    Row(job, s.id.iface, s.id.flow, s.firstSeen, s.id.vendor, s.id.domain,
        s.uplinkBytes, s.downlinkBytes, s.totalBytes, s.requestCount, s.packetCount,
        s.lastSeen, s.closedAt, s.status)
  }

  /** A key already there keeps its identifying columns and takes the rest. */
  function Upsert(t: Table, job: int, s: SessionView): Table {
    var k := s.id.sessionKey;
    if k in t then
      t[k := t[k].(captureJobId := job,
                   uplinkBytes := s.uplinkBytes, downlinkBytes := s.downlinkBytes, totalBytes := s.totalBytes,
                   requestCount := s.requestCount, packetCount := s.packetCount,
                   lastSeen := s.lastSeen, closedAt := s.closedAt, status := s.status)]
    else t[k := NewRow(job, s)]
  }

  function UpsertAll(t: Table, job: int, rows: seq<SessionView>): Table {
    if rows == [] then t
    else Upsert(UpsertAll(t, job, rows[..|rows| - 1]), job, rows[|rows| - 1])
  }

  /** A row shows a session's counters, last-seen time, close time and status. */
  predicate Shows(r: Row, s: SessionView) {
    && r.uplinkBytes == s.uplinkBytes && r.downlinkBytes == s.downlinkBytes && r.totalBytes == s.totalBytes
    && r.requestCount == s.requestCount && r.packetCount == s.packetCount
    && r.lastSeen == s.lastSeen && r.closedAt == s.closedAt && r.status == s.status
  }

  /** A key sent at least once, always with the same content, ends up showing it, however often it is repeated. */
  lemma {:induction false} UpsertShows(t: Table, job: int, rows: seq<SessionView>, key: string, s: SessionView)
    requires forall i | 0 <= i < |rows| && rows[i].id.sessionKey == key :: rows[i] == s
    ensures HasKey(rows, key) ==> key in UpsertAll(t, job, rows) && Shows(UpsertAll(t, job, rows)[key], s)
  {
    if rows != [] {
      var n := |rows| - 1;
      UpsertShows(t, job, rows[..n], key, s);
      if HasKey(rows, key) && rows[n].id.sessionKey != key {
        var i :| 0 <= i < |rows| && rows[i].id.sessionKey == key;
        assert rows[..n][i].id.sessionKey == key;
      }
    }
  }

  /** A key not sent keeps its row. */
  lemma {:induction false} UpsertFrame(t: Table, job: int, rows: seq<SessionView>, key: string)
    requires !HasKey(rows, key)
    ensures key in UpsertAll(t, job, rows) <==> key in t
    ensures key in t ==> UpsertAll(t, job, rows)[key] == t[key]
  {
    if rows != [] {
      var n := |rows| - 1;
      assert forall i | 0 <= i < n :: rows[..n][i] == rows[i];
      assert rows[n].id.sessionKey != key;
      UpsertFrame(t, job, rows[..n], key);
    }
  }

  lemma {:induction false} UpsertConcat(t: Table, job: int, a: seq<SessionView>, b: seq<SessionView>)
    ensures UpsertAll(t, job, a + b) == UpsertAll(UpsertAll(t, job, a), job, b)
  {
    if b == [] {
      assert a + b == a;
    } else {
      UpsertConcat(t, job, a, b[..|b| - 1]);
      assert (a + b)[..|a + b| - 1] == a + b[..|b| - 1];
    }
  }

  /** `rows[i]` is the first row with the key. */
  predicate FirstWith(rows: seq<SessionView>, key: string, i: nat) {
    i < |rows| && rows[i].id.sessionKey == key && forall j | 0 <= j < i :: rows[j].id.sessionKey != key
  }

  /** `rows[i]` is the last row with the key. */
  predicate LastWith(rows: seq<SessionView>, key: string, i: nat) {
    i < |rows| && rows[i].id.sessionKey == key && forall j | i < j < |rows| :: rows[j].id.sessionKey != key
  }

  /** The columns that say which connection a row is about, as a session has them. */
  predicate Names(r: Row, s: SessionView) {
    && r.iface == s.id.iface && r.flow == s.id.flow && r.domain == s.id.domain
    && r.vendor == s.id.vendor && r.firstSeen == s.firstSeen
  }

  predicate SameNames(r: Row, q: Row) {
    && r.iface == q.iface && r.flow == q.flow && r.domain == q.domain
    && r.vendor == q.vendor && r.firstSeen == q.firstSeen
  }

  lemma OneRowColumns(t: Table, job: int, s: SessionView, key: string)
    ensures key in Upsert(t, job, s) <==> key in t || key == s.id.sessionKey
    ensures key in t ==> SameNames(Upsert(t, job, s)[key], t[key])
    ensures key !in t && key == s.id.sessionKey ==> Names(Upsert(t, job, s)[key], s)
    ensures key == s.id.sessionKey ==>
      Upsert(t, job, s)[key].captureJobId == job && Shows(Upsert(t, job, s)[key], s)
    ensures key in t && key != s.id.sessionKey ==> Upsert(t, job, s)[key] == t[key]
  {
  }

  lemma NamesTwice(r: Row, q: Row, s: SessionView)
    requires SameNames(r, q) && Names(q, s)
    ensures Names(r, s)
  {
  }

  /** A key that was there keeps the columns that name it. */
  lemma {:induction false} KeepsNames(t: Table, job: int, rows: seq<SessionView>, key: string)
    requires key in t
    ensures key in UpsertAll(t, job, rows) && SameNames(UpsertAll(t, job, rows)[key], t[key])
  {
    if rows != [] {
      var init, s := rows[..|rows| - 1], rows[|rows| - 1];
      KeepsNames(t, job, init, key);
      OneRowColumns(UpsertAll(t, job, init), job, s, key);
      hide Upsert;
    }
  }

  /** A new key is named by the first row sent with it. */
  lemma {:induction false} NamedByFirst(t: Table, job: int, rows: seq<SessionView>, key: string, i: nat)
    requires key !in t && FirstWith(rows, key, i)
    ensures key in UpsertAll(t, job, rows) && Names(UpsertAll(t, job, rows)[key], rows[i])
  {
    hide Upsert, Names, SameNames;
    var init, s := rows[..|rows| - 1], rows[|rows| - 1];
    OneRowColumns(UpsertAll(t, job, init), job, s, key);
    if i < |init| {
      NamedByFirst(t, job, init, key, i);
      NamesTwice(UpsertAll(t, job, rows)[key], UpsertAll(t, job, init)[key], rows[i]);
    } else {
      UpsertFrame(t, job, init, key);
    }
  }

  /** All other columns are those of the last row sent with the key, and of the job that sent it. */
  lemma {:induction false} ShowsLast(t: Table, job: int, rows: seq<SessionView>, key: string, i: nat)
    requires LastWith(rows, key, i)
    ensures key in UpsertAll(t, job, rows)
    ensures var r, s := UpsertAll(t, job, rows)[key], rows[i];
      && r.captureJobId == job
      && r.uplinkBytes == s.uplinkBytes && r.downlinkBytes == s.downlinkBytes && r.totalBytes == s.totalBytes
      && r.requestCount == s.requestCount && r.packetCount == s.packetCount
      && r.lastSeen == s.lastSeen && r.closedAt == s.closedAt && r.status == s.status
  {
    hide Upsert;
    var init, s := rows[..|rows| - 1], rows[|rows| - 1];
    OneRowColumns(UpsertAll(t, job, init), job, s, key);
    if i < |init| {
      ShowsLast(t, job, init, key, i);
    }
  }

  const BATCH: nat := 200

  function Clip(i: nat, n: nat): nat {
    if i > n then n else i
  }

  /** Every statement that starts before row `n` is accepted. */
  predicate AllAccepted(accepts: nat -> bool, n: nat) {
    forall b: nat | b < n && b * 200 < n :: accepts(b)
  }

  lemma OneMoreAccepted(accepts: nat -> bool, i: nat, batch: nat, end: nat)
    requires i == batch * 200 < end <= i + 200 && AllAccepted(accepts, i) && accepts(batch)
    ensures AllAccepted(accepts, end)
  {
    forall b: nat | b < end && b * 200 < end ensures accepts(b) {
      if b != batch {
        assert b < batch;
      }
    }
  }

  lemma BatchStart(batch: nat)
    ensures (batch * BATCH) % BATCH == 0 && (batch * BATCH) / BATCH == batch
  {
  }

  class SessionStore {
    var apiLogs: Table

    /**
     `accepts(n)` says whether the database accepts the n-th statement.  On
     success every row has been upserted in order; on failure exactly the
     batches before the refused one have.
     */
    method UpsertSessions(job: int, rows: seq<Session>, accepts: nat -> bool) returns (ok: bool, ghost sent: nat)
      requires forall s <- rows :: s.Valid()
      modifies this
      ensures sent <= |rows| && apiLogs == UpsertAll(old(apiLogs), job, SessionViews(rows)[..sent])
      ensures ok ==> sent == |rows| && AllAccepted(accepts, |rows|)
      ensures !ok ==> sent < |rows| && sent % 200 == 0 && !accepts(sent / 200)
    {
      hide UpsertAll, AllAccepted, SessionViews, Session.Valid;
      var i, batch: nat := 0, 0;
      sent := 0;
      ghost var views := SessionViews(rows);
      NothingSent(apiLogs, job, rows, accepts);
      while i < |rows|
        invariant i == batch * BATCH && sent == Clip(i, |rows|)
        invariant apiLogs == UpsertAll(old(apiLogs), job, views[..sent])
        invariant views == SessionViews(rows)
        invariant AllAccepted(accepts, sent)
      {
        var end := i + BATCH;
        if end > |rows| {
          end := |rows|;
        }
        BatchNext(old(apiLogs), job, rows, i, end);
        BatchStart(batch);
        ok := UpsertBatch(job, rows[i..end], accepts(batch));
        if !ok {
          return;
        }
        OneMoreAccepted(accepts, i, batch, end);
        sent := end;
        i := i + BATCH;
        batch := batch + 1;
      }
      return true, sent;
    }

    lemma {:induction false} NothingSent(t: Table, job: int, rows: seq<Session>, accepts: nat -> bool)
      ensures |SessionViews(rows)| == |rows| && UpsertAll(t, job, SessionViews(rows)[..0]) == t
      ensures AllAccepted(accepts, 0)
    {
    }

    lemma {:induction false} BatchNext(t: Table, job: int, rows: seq<Session>, i: nat, end: nat)
      requires i <= end <= |rows|
      ensures SessionViews(rows[i..end]) == SessionViews(rows)[i..end]
      ensures UpsertAll(UpsertAll(t, job, SessionViews(rows)[..i]), job, SessionViews(rows[i..end]))
           == UpsertAll(t, job, SessionViews(rows)[..end])
    {
      var views := SessionViews(rows);
      UpsertConcat(t, job, views[..i], views[i..end]);
      assert views[..i] + views[i..end] == views[..end];
      assert SessionViews(rows[i..end]) == views[i..end];
    }

    /** One statement: all its rows or none. */
    method UpsertBatch(job: int, rows: seq<Session>, accepted: bool) returns (ok: bool)
      requires forall s <- rows :: s.Valid()
      modifies this
      ensures ok == accepted
      ensures apiLogs == if ok then UpsertAll(old(apiLogs), job, SessionViews(rows)) else old(apiLogs)
    {
      var t := apiLogs;
      var i := 0;
      ghost var views := SessionViews(rows);
      assert views[..0] == [];
      while i < |rows|
        invariant 0 <= i <= |rows|
        invariant t == UpsertAll(old(apiLogs), job, views[..i]) && apiLogs == old(apiLogs)
      {
        assert views[..i + 1][..i] == views[..i];
        t := UpsertOne(t, job, rows[i]);
        i := i + 1;
      }
      assert views[..i] == views;
      ok := accepted;
      if accepted {
        apiLogs := t;
      }
    }

    /** The values of one row are read from the session's own fields at this moment. */
    method UpsertOne(t: Table, job: int, r: Session) returns (t': Table)
      requires r.Valid()
      ensures t' == Upsert(t, job, r.view)
      ensures var k := r.id.sessionKey;
        && t'.Keys == t.Keys + {k} && (forall j <- t | j != k :: t'[j] == t[j])
        && t'[k].captureJobId == job && Shows(t'[k], r.view)
        && if k in t then SameNames(t'[k], t[k]) else Names(t'[k], r.view)
    {
      var k := r.id.sessionKey;
      if k in t {
        t' := t[k := t[k].(captureJobId := job,
                           uplinkBytes := r.uplinkBytes, downlinkBytes := r.downlinkBytes, totalBytes := r.totalBytes,
                           requestCount := r.requestCount, packetCount := r.packetCount,
                           lastSeen := r.lastSeen, closedAt := r.closedAt, status := r.status)];
      } else {
        t' := t[k := Row(job, r.id.iface, r.id.flow, r.firstSeen, r.id.vendor, r.id.domain,
                         r.uplinkBytes, r.downlinkBytes, r.totalBytes, r.requestCount, r.packetCount,
                         r.lastSeen, r.closedAt, r.status)];
      }
    }
  }
}
