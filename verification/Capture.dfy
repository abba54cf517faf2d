/**
 The capture daemon's scan for finished files: the `lastSeen` cursor and the
 non-blocking send.  A scan sees a directory listing and a channel that may or
 may not have room at each attempt.
 */
module Capture {
  import opened Order

  datatype File = File(name: string, readable: bool, size: nat)

  /** What one scan meets: the sorted listing, and for each file whether the channel would have room for it. */
  datatype Scan = Scan(files: seq<File>, flushAll: bool, room: nat -> bool) {
    /** The newest file is still being written, unless everything is flushed. */
    function End(): nat {
      if files != [] && !flushAll then |files| - 1 else |files|
    }

    /** A glob returns distinct paths, and they are sorted. */
    predicate Sorted() {
      forall i, j | 0 <= i < j < |files| :: Less(files[i].name, files[j].name)
    }

    predicate Whole(i: nat) {
      i < End() && files[i].readable && files[i].size > 0
    }

    /** A name stands in the finished part of the listing, with content. */
    ghost predicate Offers(name: string) {
      exists i: nat :: Whole(i) && files[i].name == name
    }
  }

  predicate Started(mark: string, name: string) {
    mark == "" || !Less(name, mark)
  }

  predicate Eligible(last: string, mark: string, scan: Scan, i: nat) {
    scan.Whole(i) && !AtMost(scan.files[i].name, last) && Started(mark, scan.files[i].name)
  }

  /** The files a scan queues from position `i` on: the eligible ones, up to the first that finds no room. */
  function Queued(last: string, mark: string, scan: Scan, i: nat): seq<string>
    decreases scan.End() - i
  {
    if i >= scan.End() then []
    else if !Eligible(last, mark, scan, i) then Queued(last, mark, scan, i + 1)
    else if scan.room(i) then [scan.files[i].name] + Queued(last, mark, scan, i + 1)
    else []
  }

  lemma NextFile(last: string, mark: string, scan: Scan, i: nat, done: seq<string>)
    requires i < scan.End()
    ensures var rest := Queued(last, mark, scan, i + 1);
      done + Queued(last, mark, scan, i)
        == if !Eligible(last, mark, scan, i) then done + rest
           else if scan.room(i) then done + [scan.files[i].name] + rest else done
  {
    assert done + [] == done;
  }

  lemma NoFile(last: string, mark: string, scan: Scan)
    ensures Queued(last, mark, scan, scan.End()) == []
  {
  }

  datatype Cursor = Cursor(lastSeen: string, queued: seq<string>)

  const FRESH: Cursor := Cursor("", [])

  function Push(c: Cursor, names: seq<string>): Cursor {
    Cursor(if names == [] then c.lastSeen else names[|names| - 1], c.queued + names)
  }

  lemma PushNone(c: Cursor)
    ensures Push(c, []) == c
  {
  }

  lemma PushOne(c: Cursor, names: seq<string>, name: string)
    ensures Push(c, names + [name]) == Cursor(name, Push(c, names).queued + [name])
  {
    assert c.queued + (names + [name]) == c.queued + names + [name];
  }

  function AfterScan(mark: string, c: Cursor, scan: Scan): Cursor {
    Push(c, Queued(c.lastSeen, mark, scan, 0))
  }

  function AfterScans(mark: string, c: Cursor, scans: seq<Scan>): Cursor {
    if scans == [] then c else AfterScan(mark, AfterScans(mark, c, scans[..|scans| - 1]), scans[|scans| - 1])
  }

  class Daemon {
    var lastSeen: string
    const startMark: string
    var taskChan: seq<string>

    constructor (startMark: string)
      ensures this.startMark == startMark && lastSeen == "" && taskChan == []
    {
      this.startMark, lastSeen, taskChan := startMark, "", [];
    }

    ghost function State(): Cursor
      reads this
    {
      Cursor(lastSeen, taskChan)
    }

    method EnqueueCompleted(scan: Scan)
      modifies this
      ensures State() == AfterScan(startMark, old(State()), scan)
      ensures scan.Sorted() ==> AddsExactly(startMark, old(State()), scan, State())
    {
      hide AddsExactly, Scan.Sorted, Less, AtMost, Queued, Push;
      ScanAdds(startMark, State(), scan);
      NoFile(lastSeen, startMark, scan);
      PushNone(State());
      var matches := scan.files;
      if |matches| == 0 {
        return;
      }
      var end := |matches|;
      if !scan.flushAll && end > 0 {
        end := end - 1;
      }
      var seen := lastSeen;
      var i := 0;
      ghost var done: seq<string> := [];
      while i < end
        invariant 0 <= i <= end == scan.End()
        invariant Queued(seen, startMark, scan, 0) == done + Queued(seen, startMark, scan, i)
        invariant State() == Push(old(State()), done)
      {
        var base := matches[i].name;
        NextFile(seen, startMark, scan, i, done);
        if AtMost(base, seen) || (startMark != "" && Less(base, startMark)) || !matches[i].readable
          || matches[i].size == 0 {
          i := i + 1;
          continue;
        }
        if !scan.room(i) {
          return;
        }
        PushOne(old(State()), done, base);
        done := done + [base];
        taskChan := taskChan + [base];
        lastSeen := base;
        i := i + 1;
      }
      assert done + [] == done;
    }
  }

  predicate Ascending(names: seq<string>) {
    forall i, j | 0 <= i < j < |names| :: Less(names[i], names[j])
  }

  // ---- one scan ------------------------------------------------------------

  /** Where a scan stops: the first eligible file that finds no room, or the end. */
  function Stop(last: string, mark: string, scan: Scan, i: nat): nat
    decreases scan.End() - i
  {
    if i >= scan.End() || (Eligible(last, mark, scan, i) && !scan.room(i)) then i else Stop(last, mark, scan, i + 1)
  }

  predicate Between(last: string, mark: string, scan: Scan, i: nat, j: nat, name: string) {
    i <= j < Stop(last, mark, scan, i) && Eligible(last, mark, scan, j) && scan.files[j].name == name
  }

  /** The queued names are those of the eligible files before the stop. */
  lemma {:induction false} QueuedAt(last: string, mark: string, scan: Scan, i: nat, k: nat) returns (j: nat)
    requires k < |Queued(last, mark, scan, i)|
    ensures Between(last, mark, scan, i, j, Queued(last, mark, scan, i)[k])
    decreases scan.End() - i
  {
    if !Eligible(last, mark, scan, i) {
      j := QueuedAt(last, mark, scan, i + 1, k);
    } else if k == 0 {
      j := i;
      StopAfter(last, mark, scan, i + 1);
    } else {
      j := QueuedAt(last, mark, scan, i + 1, k - 1);
    }
  }

  lemma {:induction false} StopAfter(last: string, mark: string, scan: Scan, i: nat)
    ensures i <= Stop(last, mark, scan, i) <= if i <= scan.End() then scan.End() else i
    ensures Stop(last, mark, scan, i) < scan.End() ==>
      Eligible(last, mark, scan, Stop(last, mark, scan, i)) && !scan.room(Stop(last, mark, scan, i))
    decreases scan.End() - i
  {
    if i < scan.End() {
      StopAfter(last, mark, scan, i + 1);
    }
  }

  lemma {:induction false} EligibleQueued(last: string, mark: string, scan: Scan, i: nat, j: nat)
    requires i <= j < Stop(last, mark, scan, i) && Eligible(last, mark, scan, j)
    ensures scan.files[j].name in Queued(last, mark, scan, i)
    decreases scan.End() - i
  {
    if i < j {
      EligibleQueued(last, mark, scan, i + 1, j);
    }
  }

  /** A scan queues names beyond the cursor, in ascending order. */
  lemma {:induction false} QueuedAscending(last: string, mark: string, scan: Scan, i: nat)
    requires scan.Sorted()
    ensures Ascending(Queued(last, mark, scan, i))
    ensures forall n <- Queued(last, mark, scan, i) :: Less(last, n) && Started(mark, n)
    decreases scan.End() - i
  {
    if i < scan.End() {
      QueuedAscending(last, mark, scan, i + 1);
      if Eligible(last, mark, scan, i) && scan.room(i) {
        LessExactly(last, scan.files[i].name);
        var rest := Queued(last, mark, scan, i + 1);
        forall k | 0 <= k < |rest| ensures Less(scan.files[i].name, rest[k]) {
          var j := QueuedAt(last, mark, scan, i + 1, k);
        }
      }
    }
  }

  /** The cursor after a scan is the last queued name; every other queued name is below it. */
  lemma LastIsTop(names: seq<string>, n: string)
    requires Ascending(names) && n in names
    ensures AtMost(n, names[|names| - 1])
  {
  }

  /**
   What a scan does to a name the cursor has not reached and the daemon may
   take: the cursor passes it exactly by queueing it or by queueing a later
   name, and if it is passed it is queued exactly when it was offered.
   */
  lemma {:induction false} PassedIsQueued(mark: string, c: Cursor, scan: Scan, name: string)
    requires scan.Sorted() && Less(c.lastSeen, name) && Started(mark, name)
    requires AtMost(name, AfterScan(mark, c, scan).lastSeen)
    ensures name in Queued(c.lastSeen, mark, scan, 0) <==> scan.Offers(name)
  {
    var names := Queued(c.lastSeen, mark, scan, 0);
    LessExactly(c.lastSeen, name);
    QueuedAscending(c.lastSeen, mark, scan, 0);
    if name in names {
      var k :| 0 <= k < |names| && names[k] == name;
      var j := QueuedAt(c.lastSeen, mark, scan, 0, k);
    }
    if scan.Offers(name) {
      var j: nat :| scan.Whole(j) && scan.files[j].name == name;
      TopBeforeStop(c.lastSeen, mark, scan, j);
      EligibleQueued(c.lastSeen, mark, scan, 0, j);
    }
  }

  /** An eligible file at or below the last queued name stands before the stop. */
  lemma {:induction false} TopBeforeStop(last: string, mark: string, scan: Scan, j: nat)
    requires scan.Sorted() && Eligible(last, mark, scan, j) && Queued(last, mark, scan, 0) != []
    requires var names := Queued(last, mark, scan, 0); AtMost(scan.files[j].name, names[|names| - 1])
    ensures j < Stop(last, mark, scan, 0)
  {
    var names := Queued(last, mark, scan, 0);
    var t := QueuedAt(last, mark, scan, 0, |names| - 1);
    if t < j {
      LessExactly(scan.files[t].name, scan.files[j].name);
    }
  }

  /**
   A full channel delays and does not drop: an offered file beyond the cursor
   is queued, or the cursor stays before it.
   */
  lemma {:induction false} DelayedNotDropped(mark: string, c: Cursor, scan: Scan, name: string)
    requires scan.Sorted() && scan.Offers(name) && Less(c.lastSeen, name) && Started(mark, name)
    ensures name in AfterScan(mark, c, scan).queued || Less(AfterScan(mark, c, scan).lastSeen, name)
    ensures (forall i: nat :: scan.room(i)) ==> name in AfterScan(mark, c, scan).queued
  {
    LessExactly(AfterScan(mark, c, scan).lastSeen, name);
    if AtMost(name, AfterScan(mark, c, scan).lastSeen) {
      PassedIsQueued(mark, c, scan, name);
    } else if forall i: nat :: scan.room(i) {
      var j: nat :| scan.Whole(j) && scan.files[j].name == name;
      LessExactly(c.lastSeen, name);
      StopAfter(c.lastSeen, mark, scan, 0);
      EligibleQueued(c.lastSeen, mark, scan, 0, j);
    }
  }

  // ---- exactly which files a scan queues -----------------------------------

  /**
   A readable file with content, beyond the cursor and not before the start
   mark, and not the newest unless flushed.
   */
  predicate Takes(last: string, mark: string, scan: Scan, i: nat) {
    && i < |scan.files|
    && (scan.flushAll || i < |scan.files| - 1)
    && scan.files[i].readable && scan.files[i].size > 0
    && Less(last, scan.files[i].name)
    && (mark == "" || !Less(scan.files[i].name, mark))
  }

  /** The listed file is to be taken, and so far every file to be taken found room. */
  predicate Reaches(last: string, mark: string, scan: Scan, i: nat) {
    Takes(last, mark, scan, i) && forall j: nat | j <= i && Takes(last, mark, scan, j) :: scan.room(j)
  }

  lemma TakesEligible(last: string, mark: string, scan: Scan)
    ensures forall i: nat :: Takes(last, mark, scan, i) <==> Eligible(last, mark, scan, i)
  {
    forall i: nat ensures Takes(last, mark, scan, i) <==> Eligible(last, mark, scan, i) {
      if i < |scan.files| {
        LessExactly(last, scan.files[i].name);
      }
    }
  }

  /** Before the stop every eligible file found room. */
  lemma {:induction false} RoomBefore(last: string, mark: string, scan: Scan, i: nat)
    ensures forall j: nat | i <= j < Stop(last, mark, scan, i) && Eligible(last, mark, scan, j) :: scan.room(j)
    decreases scan.End() - i
  {
    if i < scan.End() && !(Eligible(last, mark, scan, i) && !scan.room(i)) {
      RoomBefore(last, mark, scan, i + 1);
    }
  }

  /**
   A scan adds a listed name exactly when the file is to be taken and neither it
   nor an earlier one found the channel full.  So without a flush the newest file
   is held back, and with room everywhere all the others that qualify are queued.
   */
  lemma {:induction false} QueuedExactly(mark: string, c: Cursor, scan: Scan, i: nat)
    requires scan.Sorted() && i < |scan.files|
    ensures c.queued <= AfterScan(mark, c, scan).queued
    ensures var name, added := scan.files[i].name, AfterScan(mark, c, scan).queued[|c.queued|..];
      && (name in added <==> Reaches(c.lastSeen, mark, scan, i))
      && (i == |scan.files| - 1 && !scan.flushAll ==> name !in added)
      && ((forall j: nat :: scan.room(j)) && (i < |scan.files| - 1 || scan.flushAll) ==>
            (name in added <==> && scan.files[i].readable && scan.files[i].size > 0
                                && Less(c.lastSeen, name) && (mark == "" || !Less(name, mark))))
  {
    var name, names := scan.files[i].name, Queued(c.lastSeen, mark, scan, 0);
    assert AfterScan(mark, c, scan).queued[|c.queued|..] == names;
    TakesEligible(c.lastSeen, mark, scan);
    StopAfter(c.lastSeen, mark, scan, 0);
    if name in names {
      var k :| 0 <= k < |names| && names[k] == name;
      var j := QueuedAt(c.lastSeen, mark, scan, 0, k);
      LessIrreflexive(name);
      assert i == j;
      RoomBefore(c.lastSeen, mark, scan, 0);
    }
    if Reaches(c.lastSeen, mark, scan, i) {
      EligibleQueued(c.lastSeen, mark, scan, 0, i);
    }
  }

  /** The names in `c'` but not yet in `c` are those of the listed files the scan reaches. */
  ghost predicate AddsExactly(mark: string, c: Cursor, scan: Scan, c': Cursor) {
    && c.queued <= c'.queued
    && forall i: nat | i < |scan.files| ::
         scan.files[i].name in c'.queued[|c.queued|..] <==> Reaches(c.lastSeen, mark, scan, i)
  }

  lemma ScanAdds(mark: string, c: Cursor, scan: Scan)
    ensures scan.Sorted() ==> AddsExactly(mark, c, scan, AfterScan(mark, c, scan))
  {
    if scan.Sorted() {
      forall i: nat | i < |scan.files|
        ensures scan.files[i].name in AfterScan(mark, c, scan).queued[|c.queued|..]
           <==> Reaches(c.lastSeen, mark, scan, i)
      {
        QueuedExactly(mark, c, scan, i);
      }
    }
  }

  /** Every name a scan adds is a listed one. */
  lemma {:induction false} AddedIsListed(mark: string, c: Cursor, scan: Scan, name: string)
    requires name in AfterScan(mark, c, scan).queued && name !in c.queued
    ensures exists i :: 0 <= i < |scan.files| && scan.files[i].name == name
  {
    var names := Queued(c.lastSeen, mark, scan, 0);
    var k :| 0 <= k < |names| && names[k] == name;
    var j := QueuedAt(c.lastSeen, mark, scan, 0, k);
  }

  /** What a scan offers: every listed file with content, but the newest only when everything is flushed. */
  lemma OffersExactly(scan: Scan, i: nat)
    requires scan.Sorted() && i < |scan.files|
    ensures scan.Offers(scan.files[i].name)
       <==> scan.files[i].readable && scan.files[i].size > 0 && (i == |scan.files| - 1 ==> scan.flushAll)
  {
    LessIrreflexive(scan.files[i].name);
    if scan.Offers(scan.files[i].name) {
      var j: nat :| scan.Whole(j) && scan.files[j].name == scan.files[i].name;
      assert i == j;
    }
    if scan.Whole(i) {
      assert scan.Offers(scan.files[i].name);
    }
  }

  // ---- any sequence of scans -----------------------------------------------

  /** The queued names increase, and the cursor is the last of them. */
  predicate InStep(c: Cursor) {
    Ascending(c.queued) && c.lastSeen == if c.queued == [] then "" else c.queued[|c.queued| - 1]
  }

  lemma ScanKeepsInStep(mark: string, c: Cursor, scan: Scan)
    requires InStep(c) && scan.Sorted()
    ensures InStep(AfterScan(mark, c, scan)) && AtMost(c.lastSeen, AfterScan(mark, c, scan).lastSeen)
  {
    var names := Queued(c.lastSeen, mark, scan, 0);
    QueuedAscending(c.lastSeen, mark, scan, 0);
    forall i, j | 0 <= i < |c.queued| && 0 <= j < |names| ensures Less(c.queued[i], names[j]) {
      assert names[j] in names;
      if i < |c.queued| - 1 {
        LessTransitive(c.queued[i], c.lastSeen, names[j]);
      }
    }
    if names != [] {
      assert names[|names| - 1] in names;
    }
  }

  /** Over any scans the queued names are strictly increasing: no file is queued twice, none out of order. */
  lemma {:induction false} QueuedIncreasing(mark: string, scans: seq<Scan>)
    requires forall s <- scans :: s.Sorted()
    ensures InStep(AfterScans(mark, FRESH, scans))
  {
    if scans != [] {
      var n := |scans| - 1;
      assert forall s <- scans[..n] :: s in scans;
      assert scans[n] in scans;
      QueuedIncreasing(mark, scans[..n]);
      ScanKeepsInStep(mark, AfterScans(mark, FRESH, scans[..n]), scans[n]);
    }
  }

  predicate Passes(mark: string, scans: seq<Scan>, k: nat, name: string) {
    && k < |scans|
    && Less(AfterScans(mark, FRESH, scans[..k]).lastSeen, name)
    && AtMost(name, AfterScans(mark, FRESH, scans[..k + 1]).lastSeen)
  }

  /** The scan in which the cursor passed a name. */
  lemma {:induction false} PassingScan(mark: string, scans: seq<Scan>, name: string) returns (k: nat)
    requires name != "" && AtMost(name, AfterScans(mark, FRESH, scans).lastSeen)
    ensures Passes(mark, scans, k, name)
  {
    if scans == [] {
      assert false;
    } else {
      var n := |scans| - 1;
      LessExactly(AfterScans(mark, FRESH, scans[..n]).lastSeen, name);
      assert scans[..n + 1] == scans;
      if Less(AfterScans(mark, FRESH, scans[..n]).lastSeen, name) {
        k := n;
      } else {
        k := PassingScan(mark, scans[..n], name);
        assert scans[..n][..k] == scans[..k] && scans[..n][..k + 1] == scans[..k + 1];
      }
    }
  }

  /** A passed name is queued exactly when the scan that passed it was offered it: never earlier, never later. */
  lemma {:induction false} QueuedIffOffered(mark: string, scans: seq<Scan>, k: nat, name: string)
    requires (forall s <- scans :: s.Sorted()) && Started(mark, name) && Passes(mark, scans, k, name)
    ensures name in AfterScans(mark, FRESH, scans).queued <==> scans[k].Offers(name)
  {
    var n := |scans| - 1;
    assert forall s <- scans[..n] :: s in scans;
    assert scans[n] in scans;
    var c := AfterScans(mark, FRESH, scans[..n]);
    QueuedIncreasing(mark, scans[..n]);
    LessIrreflexive(name);
    if k == n {
      assert scans[..n + 1] == scans;
      PassedIsQueued(mark, c, scans[n], name);
      if name in c.queued {
        LastIsTop(c.queued, name);
        LessExactly(c.lastSeen, name);
      }
    } else {
      assert scans[..n][..k] == scans[..k] && scans[..n][..k + 1] == scans[..k + 1];
      QueuedIffOffered(mark, scans[..n], k, name);
      NotQueuedAgain(mark, scans, k, name);
    }
  }

  lemma {:induction false} NotQueuedAgain(mark: string, scans: seq<Scan>, k: nat, name: string)
    requires (forall s <- scans :: s.Sorted()) && Passes(mark, scans, k, name) && k < |scans| - 1
    ensures name !in Queued(AfterScans(mark, FRESH, scans[..|scans| - 1]).lastSeen, mark, scans[|scans| - 1], 0)
  {
    var n := |scans| - 1;
    var c := AfterScans(mark, FRESH, scans[..n]);
    assert scans[n] in scans;
    QueuedAscending(c.lastSeen, mark, scans[n], 0);
    CursorGrows(mark, scans[..n], k + 1);
    assert scans[..n][..k + 1] == scans[..k + 1];
    var at := AfterScans(mark, FRESH, scans[..k + 1]).lastSeen;
    if at != c.lastSeen && name != at {
      LessTransitive(name, at, c.lastSeen);
    }
    LessExactly(c.lastSeen, name);
  }

  lemma {:induction false} CursorGrows(mark: string, scans: seq<Scan>, k: nat)
    requires (forall s <- scans :: s.Sorted()) && k <= |scans|
    ensures AtMost(AfterScans(mark, FRESH, scans[..k]).lastSeen, AfterScans(mark, FRESH, scans).lastSeen)
  {
    var n := |scans| - 1;
    if k == |scans| {
      assert scans[..k] == scans;
    } else {
      assert forall s <- scans[..n] :: s in scans;
      assert scans[n] in scans && scans[..n][..k] == scans[..k];
      CursorGrows(mark, scans[..n], k);
      QueuedIncreasing(mark, scans[..n]);
      ScanKeepsInStep(mark, AfterScans(mark, FRESH, scans[..n]), scans[n]);
      var a, b, d := AfterScans(mark, FRESH, scans[..k]).lastSeen, AfterScans(mark, FRESH, scans[..n]).lastSeen,
                     AfterScans(mark, FRESH, scans).lastSeen;
      if a != b && b != d {
        LessTransitive(a, b, d);
      }
    }
  }

  /** A name is there, with content, in every scan that offers a later one. */
  ghost predicate BeforeLater(scan: Scan, name: string) {
    forall later | scan.Offers(later) && Less(name, later) :: scan.Offers(name)
  }

  /**
   Files that appear in order, each with content before a later one, are never
   lost: at or below the cursor means queued.
   */
  lemma {:induction false} NothingLost(mark: string, scans: seq<Scan>, name: string)
    requires (forall s <- scans :: s.Sorted() && BeforeLater(s, name)) && name != "" && Started(mark, name)
    requires AtMost(name, AfterScans(mark, FRESH, scans).lastSeen)
    ensures name in AfterScans(mark, FRESH, scans).queued
  {
    var k := PassingScan(mark, scans, name);
    QueuedIffOffered(mark, scans, k, name);
    assert scans[k] in scans;
    var c := AfterScans(mark, FRESH, scans[..k]);
    assert scans[..k + 1][..k] == scans[..k];
    var names := Queued(c.lastSeen, mark, scans[k], 0);
    LessExactly(c.lastSeen, name);
    var j := QueuedAt(c.lastSeen, mark, scans[k], 0, |names| - 1);
    assert scans[k].Offers(names[|names| - 1]);
  }
}
