/**
 Usage per user: detail rows are grouped by user, or by first address when no
 user is known, and the groups are ranked by cost.  The JSON view aggregates
 the rows of a group; the CSV export writes them out group by group.
 */
module Users {
  import opened Lists
  import opened Order
  import opened Rank

  // ---- one detail row ------------------------------------------------------

  /** The columns that a group adds up. */
  datatype Counts = Counts(
    sessionCount: int, requestCount: int, uplinkBytes: int, downlinkBytes: int, totalBytes: int,
    inputTokens: int, outputTokens: int, totalTokens: int, costUSD: real)
  {
    function Plus(o: Counts): Counts {
      Counts(sessionCount + o.sessionCount, requestCount + o.requestCount, uplinkBytes + o.uplinkBytes,
             downlinkBytes + o.downlinkBytes, totalBytes + o.totalBytes, inputTokens + o.inputTokens,
             outputTokens + o.outputTokens, totalTokens + o.totalTokens, costUSD + o.costUSD)
    }
  }

  lemma PlusSwaps(a: Counts, b: Counts, c: Counts)
    ensures a.Plus(b).Plus(c) == a.Plus(c).Plus(b) == a.Plus(b.Plus(c))
    ensures a.Plus(NOTHING.Plus(c)) == a.Plus(c)
  {
  }

  const NOTHING: Counts := Counts(0, 0, 0, 0, 0, 0, 0, 0, 0.0)

  datatype Detail = Detail(
    srcUser: string, srcDepartment: string, srcIP: string, vendor: string, channelType: string, domain: string,
    counts: Counts, firstSeen: string, lastSeen: string)

  predicate IsSpace(c: char) {
    c as int in {0x09, 0x0A, 0x0B, 0x0C, 0x0D, 0x20, 0x85, 0xA0, 0x1680, 0x2028, 0x2029, 0x202F, 0x205F, 0x3000}
    || 0x2000 <= c as int <= 0x200A
  }

  function Trim(s: string): string {
    if s != [] && IsSpace(s[0]) then Trim(s[1..])
    else if s != [] && IsSpace(s[|s| - 1]) then Trim(s[..|s| - 1])
    else s
  }

  /** The position of the first comma, or the length. */
  function Comma(s: string): (n: nat)
    ensures n <= |s| && ',' !in s[..n] && (n < |s| ==> s[n] == ',')
  {
    if s == [] || s[0] == ',' then 0 else 1 + Comma(s[1..])
  }

  function Pieces(s: string): seq<string> {
    if Comma(s) == |s| then [s] else [s[..Comma(s)]] + Pieces(s[Comma(s) + 1..])
  }

  function NonBlank(pieces: seq<string>): set<string> {
    set p <- pieces | Trim(p) != "" :: Trim(p)
  }

  function Addresses(s: string): set<string> {
    NonBlank(Pieces(s))
  }

  /** Only a comma after the first character cuts the address list. */
  function FirstIP(s: string): string {
    if 0 < Comma(s) < |s| then Trim(s[..Comma(s)]) else s
  }

  function KeyOf(d: Detail): string {
    if d.srcUser == "" then "ip:" + FirstIP(d.srcIP) else d.srcUser
  }

  predicate AllSpace(s: string) {
    forall c <- s :: IsSpace(c)
  }

  lemma AllSpaceWith(c: char, s: string)
    requires IsSpace(c) && AllSpace(s)
    ensures AllSpace([c] + s) && AllSpace(s + [c])
  {
    hide IsSpace;
  }

  /** Trimming takes off white space at both ends and nothing else. */
  lemma {:induction false} TrimOf(s: string) returns (l: string, r: string)
    ensures s == l + Trim(s) + r && AllSpace(l) && AllSpace(r)
    ensures Trim(s) != "" ==> !IsSpace(Trim(s)[0]) && !IsSpace(Trim(s)[|Trim(s)| - 1])
  {
    hide IsSpace, AllSpace;
    var n := |s| - 1;
    if s != [] && IsSpace(s[0]) {
      assert Trim(s) == Trim(s[1..]);
      var l', r' := TrimOf(s[1..]);
      l, r := [s[0]] + l', r';
      assert s == [s[0]] + (l' + Trim(s) + r') == l + Trim(s) + r;
      AllSpaceWith(s[0], l');
    } else if s != [] && IsSpace(s[n]) {
      assert Trim(s) == Trim(s[..n]);
      var l', r' := TrimOf(s[..n]);
      l, r := l', r' + [s[n]];
      assert s == (l' + Trim(s) + r') + [s[n]] == l + Trim(s) + r;
      AllSpaceWith(s[n], r');
    } else {
      l, r := "", "";
      assert AllSpace("") by {
        NoSpaces();
      }
    }
  }

  lemma NoSpaces()
    ensures AllSpace("")
  {
  }

  function Joined(pieces: seq<string>): string {
    if pieces == [] then "" else if |pieces| == 1 then pieces[0] else pieces[0] + "," + Joined(pieces[1..])
  }

  /** Splitting is undone by joining with commas, and no piece holds one. */
  lemma {:induction false} PiecesOf(s: string)
    ensures Pieces(s) != [] && Joined(Pieces(s)) == s && forall p <- Pieces(s) :: ',' !in p
  {
    var n := Comma(s);
    if n < |s| {
      PiecesOf(s[n + 1..]);
      assert Pieces(s)[1..] == Pieces(s[n + 1..]);
      assert s == s[..n] + "," + s[n + 1..];
    } else {
      assert s[..n] == s;
    }
  }

  /** The first address of a list is trimmed; a text without a comma, or that starts with one, is taken as it is. */
  lemma FirstIPOf(a: string, rest: string)
    requires ',' !in a
    ensures a != "" ==> FirstIP(a + "," + rest) == Trim(a)
    ensures FirstIP(a) == a && FirstIP("," + rest) == "," + rest
  {
    hide Trim;
    CommaAt(a, rest);
    CommaAt("", rest);
    assert "" + "," + rest == "," + rest;
    assert (a + "," + rest)[..|a|] == a;
  }

  lemma {:induction false} CommaAt(a: string, rest: string)
    requires ',' !in a
    ensures Comma(a + "," + rest) == |a| == Comma(a)
  {
    var s := a + "," + rest;
    if a != "" {
      assert s[1..] == a[1..] + "," + rest && a[0] in a && s[0] == a[0];
      CommaAt(a[1..], rest);
    }
  }

  /**
   When two rows count for one user: the same user name, the same first address
   and no name, or a user whose name happens to read `ip:` and that address.
   */
  lemma SameKeyIff(a: Detail, b: Detail)
    ensures KeyOf(a) == KeyOf(b) <==>
      || (a.srcUser == b.srcUser && (a.srcUser != "" || FirstIP(a.srcIP) == FirstIP(b.srcIP)))
      || (a.srcUser == "" && b.srcUser == "ip:" + FirstIP(a.srcIP))
      || (b.srcUser == "" && a.srcUser == "ip:" + FirstIP(b.srcIP))
  {
    hide FirstIP;
    assert KeyOf(a) == "ip:" + FirstIP(a.srcIP) ==> KeyOf(a)[3..] == FirstIP(a.srcIP);
    assert KeyOf(b) == "ip:" + FirstIP(b.srcIP) ==> KeyOf(b)[3..] == FirstIP(b.srcIP);
  }

  // ---- what a group of rows amounts to -------------------------------------

  datatype Agg = Agg(
    srcUser: string, srcDept: string, ips: set<string>, vendors: set<string>, counts: Counts,
    firstSeen: string, lastSeen: string)

  function NewAgg(d: Detail): Agg {
    Agg(d.srcUser, d.srcDepartment, {}, {}, NOTHING, "", "")
  }

  /** The rows of one key, in order. */
  function Own(items: seq<Detail>, key: string): seq<Detail> {
    if items == [] then []
    else
      var own := Own(items[..|items| - 1], key);
      if KeyOf(items[|items| - 1]) == key then own + [items[|items| - 1]] else own
  }

  function Total(items: seq<Detail>): Counts {
    if items == [] then NOTHING else Total(items[..|items| - 1]).Plus(items[|items| - 1].counts)
  }

  /** The keys in the order of their first rows. */
  function FirstKeys(items: seq<Detail>): seq<string> {
    if items == [] then []
    else
      var keys, key := FirstKeys(items[..|items| - 1]), KeyOf(items[|items| - 1]);
      if key in keys then keys else keys + [key]
  }

  /** The last non-empty department, else the first row's. */
  function DeptOf(items: seq<Detail>): string {
    if items == [] then ""
    else if items[|items| - 1].srcDepartment != "" then items[|items| - 1].srcDepartment
    else DeptOf(items[..|items| - 1])
  }

  predicate LeastNonEmpty(t: string, texts: set<string>) {
    if t == "" then forall x <- texts :: x == "" else t in texts && forall x <- texts | x != "" :: AtMost(t, x)
  }

  predicate Greatest(t: string, texts: set<string>) {
    (t == "" || t in texts) && forall x <- texts :: AtMost(x, t)
  }

  function FirstSeens(items: seq<Detail>): set<string> {
    set d <- items :: d.firstSeen
  }

  function LastSeens(items: seq<Detail>): set<string> {
    set d <- items :: d.lastSeen
  }

  /** What the aggregate of some rows says about them. */
  ghost predicate Aggregates(a: Agg, items: seq<Detail>) {
    && items != [] && a.srcUser == items[0].srcUser && a.srcDept == DeptOf(items)
    && a.counts == Total(items)
    && (forall ip :: ip in a.ips <==> exists d <- items :: ip in Addresses(d.srcIP))
    && (forall v :: v in a.vendors <==> exists d <- items :: v == d.vendor)
    && LeastNonEmpty(a.firstSeen, FirstSeens(items)) && Greatest(a.lastSeen, LastSeens(items))
  }

  /** The loop body's effect on one group. */
  function Extend(a: Agg, d: Detail): Agg {
    a.(ips := a.ips + Addresses(d.srcIP),
       vendors := a.vendors + {d.vendor},
       srcDept := if d.srcDepartment != "" then d.srcDepartment else a.srcDept,
       counts := a.counts.Plus(d.counts),
       firstSeen := if a.firstSeen == "" || (d.firstSeen != "" && Less(d.firstSeen, a.firstSeen)) 
         then d.firstSeen else a.firstSeen,
       lastSeen := if Less(a.lastSeen, d.lastSeen) then d.lastSeen else a.lastSeen)
  }

  lemma FirstAggregates(d: Detail)
    ensures Aggregates(Extend(NewAgg(d), d), [d])
  {
    assert [d][..0] == [] && FirstSeens([d]) == {d.firstSeen} && LastSeens([d]) == {d.lastSeen};
    assert DeptOf([]) == "";
    if d.lastSeen != "" {
      assert Less("", d.lastSeen);
    }
  }

  lemma {:induction false} LeastExtends(t: string, texts: set<string>, x: string)
    requires LeastNonEmpty(t, texts)
    ensures LeastNonEmpty(if t == "" || (x != "" && Less(x, t)) then x else t, texts + {x})
  {
    if t != "" && x != "" {
      LessExactly(x, t);
      if Less(x, t) {
        forall y <- texts | y != "" ensures AtMost(x, y) {
          if y != t {
            LessTransitive(x, t, y);
          }
        }
      }
    }
  }

  lemma {:induction false} GreatestExtends(t: string, texts: set<string>, x: string)
    requires Greatest(t, texts)
    ensures Greatest(if Less(t, x) then x else t, texts + {x})
  {
    LessExactly(t, x);
    if Less(t, x) {
      forall y <- texts ensures AtMost(y, x) {
        if y != t {
          LessTransitive(y, t, x);
        }
      }
    }
  }

  lemma SeensExtend(own: seq<Detail>, d: Detail)
    ensures FirstSeens(own + [d]) == FirstSeens(own) + {d.firstSeen}
    ensures LastSeens(own + [d]) == LastSeens(own) + {d.lastSeen}
  {
    assert forall x <- own + [d] :: x in own || x == d;
    assert d in own + [d] && forall x <- own :: x in own + [d];
  }

  lemma SetsExtend(own: seq<Detail>, d: Detail, ips: set<string>, vendors: set<string>)
    requires (forall ip :: ip in ips <==> exists x <- own :: ip in Addresses(x.srcIP))
    requires (forall v :: v in vendors <==> exists x <- own :: v == x.vendor)
    ensures (forall ip :: ip in ips + Addresses(d.srcIP) <==> exists x <- own + [d] :: ip in Addresses(x.srcIP))
    ensures (forall v :: v in vendors + {d.vendor} <==> exists x <- own + [d] :: v == x.vendor)
  {
    hide Addresses;
    assert forall x <- own + [d] :: x in own || x == d;
    assert d in own + [d] && forall x <- own :: x in own + [d];
  }

  /** One more row of the same user keeps the aggregate exact. */
  lemma ExtendAggregates(a: Agg, own: seq<Detail>, d: Detail)
    requires Aggregates(a, own)
    ensures Aggregates(Extend(a, d), own + [d])
  {
    hide Addresses, LeastNonEmpty, Greatest, FirstSeens, LastSeens, Counts.Plus;
    assert (own + [d])[..|own|] == own;
    SeensExtend(own, d);
    SetsExtend(own, d, a.ips, a.vendors);
    LeastExtends(a.firstSeen, FirstSeens(own), d.firstSeen);
    GreatestExtends(a.lastSeen, LastSeens(own), d.lastSeen);
  }

  // ---- the JSON view -------------------------------------------------------

  /** Adds every non-blank address of a comma-separated list. */
  method CollectIPs(ips: set<string>, srcIP: string) returns (ips': set<string>)
    ensures ips' == ips + Addresses(srcIP)
  {
    hide NonBlank, Trim;
    ips' := ips;
    var pieces := Pieces(srcIP);
    var i := 0;
    OneMorePiece([], "");
    assert pieces[..0] == [];
    while i < |pieces|
      invariant 0 <= i <= |pieces| && ips' == ips + NonBlank(pieces[..i])
    {
      var ip := Trim(pieces[i]);
      OneMorePiece(pieces[..i], pieces[i]);
      assert pieces[..i + 1] == pieces[..i] + [pieces[i]];
      if ip != "" {
        ips' := ips' + {ip};
      }
      i := i + 1;
    }
    assert pieces[..i] == pieces;
  }

  lemma {:induction false} OneMorePiece(pieces: seq<string>, p: string)
    ensures NonBlank(pieces + [p]) == NonBlank(pieces) + (if Trim(p) != "" then {Trim(p)} else {})
    ensures NonBlank([]) == {}
  {
    hide Trim;
    assert p in pieces + [p] && forall q <- pieces :: q in pieces + [p];
    assert forall q <- pieces + [p] :: q in pieces || q == p;
  }

  method ExtendAgg(a: Agg, item: Detail) returns (a': Agg)
    ensures a' == Extend(a, item)
  {
    var ips := CollectIPs(a.ips, item.srcIP);
    a' := a.(ips := ips, vendors := a.vendors + {item.vendor}, counts := a.counts.Plus(item.counts));
    if item.srcDepartment != "" {
      a' := a'.(srcDept := item.srcDepartment);
    }
    if a'.firstSeen == "" || (item.firstSeen != "" && Less(item.firstSeen, a'.firstSeen)) {
      a' := a'.(firstSeen := item.firstSeen);
    }
    if Less(a'.lastSeen, item.lastSeen) {
      a' := a'.(lastSeen := item.lastSeen);
    }
  }

  ghost predicate Grouped(order: seq<string>, aggs: map<string, Agg>, items: seq<Detail>) {
    && order == FirstKeys(items)
    && (forall k :: k in aggs <==> k in order)
    && (forall k <- aggs :: Aggregates(aggs[k], Own(items, k)))
  }

  /** One pass over the rows: every user's aggregate is exact, and the users stand in order of first appearance. */
  method Aggregate(items: seq<Detail>) returns (aggOrder: seq<string>, aggMap: map<string, Agg>)
    ensures Grouped(aggOrder, aggMap, items)
  {
    hide Grouped, KeyOf, Extend, NewAgg;
    aggOrder, aggMap := [], map[];
    var i := 0;
    assert items[..0] == [];
    NoneGrouped();
    while i < |items|
      invariant 0 <= i <= |items| && Grouped(aggOrder, aggMap, items[..i])
    {
      var item := items[i];
      var key := KeyOf(item);
      ghost var wasOrder, wasMap := aggOrder, aggMap;
      var agg := if key in aggMap then aggMap[key] else NewAgg(item);
      if key !in aggMap {
        aggOrder := aggOrder + [key];
      }
      agg := ExtendAgg(agg, item);
      aggMap := aggMap[key := agg];
      GroupedExtends(wasOrder, wasMap, items[..i], item);
      assert items[..i + 1] == items[..i] + [item];
      i := i + 1;
    }
    assert items[..i] == items;
  }

  lemma NoneGrouped()
    ensures Grouped([], map[], [])
  {
  }

  lemma GroupedExtends(order: seq<string>, aggs: map<string, Agg>, items: seq<Detail>, d: Detail)
    requires Grouped(order, aggs, items)
    ensures var key := KeyOf(d);
      Grouped(if key in aggs then order else order + [key],
              aggs[key := Extend(if key in aggs then aggs[key] else NewAgg(d), d)], items + [d])
  {
    hide Aggregates, KeyOf, Extend;
    var key := KeyOf(d);
    assert (items + [d])[..|items|] == items;
    if key in aggs {
      ExtendAggregates(aggs[key], Own(items, key), d);
    } else {
      OwnEmpty(items, key);
      FirstAggregates(d);
      assert Own(items + [d], key) == [d];
    }
  }

  lemma {:induction false} OwnEmpty(items: seq<Detail>, key: string)
    ensures key in FirstKeys(items) <==> Own(items, key) != []
  {
    if items != [] {
      OwnEmpty(items[..|items| - 1], key);
    }
  }

  /** One row of the JSON view; the key is kept beside the columns. */
  datatype UserRow = UserRow(key: string, agg: Agg)

  function CostOf(items: seq<Detail>): string -> real {
    key => Total(Own(items, key)).costUSD
  }

  /** The users by falling cost, equal costs in order of first appearance. */
  function UserOrder(items: seq<Detail>): seq<string> {
    SortDesc(FirstKeys(items), CostOf(items))
  }

  function Keys(rows: seq<UserRow>): seq<string> {
    seq(|rows|, i requires 0 <= i < |rows| => rows[i].key)
  }

  function RowCost(): UserRow -> real {
    (r: UserRow) => r.agg.counts.costUSD
  }

  /** The whole list behind `/api/user-total`: one exact row per user, ranked by cost. */
  method UserTotals(items: seq<Detail>) returns (rows: seq<UserRow>)
    ensures Keys(rows) == UserOrder(items)
    ensures forall r <- rows :: Aggregates(r.agg, Own(items, r.key))
  {
    hide Aggregates, Own, FirstKeys, SortDesc;
    var aggOrder, aggMap := Aggregate(items);
    rows := [];
    var i := 0;
    while i < |aggOrder|
      invariant 0 <= i <= |aggOrder| && Keys(rows) == aggOrder[..i]
      invariant forall r <- rows :: r.key in aggMap && r.agg == aggMap[r.key]
    {
      var was := rows;
      rows := rows + [UserRow(aggOrder[i], aggMap[aggOrder[i]])];
      assert Keys(rows) == Keys(was) + [aggOrder[i]];
      assert forall r <- rows :: r in was || r == rows[|was|];
      i := i + 1;
    }
    assert aggOrder[..i] == aggOrder;
    forall r <- rows ensures r.agg.counts.costUSD == CostOf(items)(r.key) {
      AggregateCost(r.agg, Own(items, r.key));
    }
    SortKeys(rows, CostOf(items));
    SortRanks(rows, RowCost());
    var sorted := SortDesc(rows, RowCost());
    forall r <- sorted ensures Aggregates(r.agg, Own(items, r.key)) {
      assert r in multiset(sorted);
    }
    rows := sorted;
  }

  lemma {:induction false} AggregateCost(a: Agg, own: seq<Detail>)
    requires Aggregates(a, own)
    ensures a.counts == Total(own)
  {
  }

  /** Sorting rows sorts their keys. */
  lemma {:induction false} SortKeys(rows: seq<UserRow>, cost: string -> real)
    requires forall r <- rows :: r.agg.counts.costUSD == cost(r.key)
    ensures Keys(SortDesc(rows, RowCost())) == SortDesc(Keys(rows), cost)
  {
    hide Place;
    if rows != [] {
      var init, r := rows[..|rows| - 1], rows[|rows| - 1];
      assert forall x <- init :: x in rows;
      assert r in rows;
      SortKeys(init, cost);
      SortHolds(init, cost);
      PlaceKeys(r, SortDesc(init, RowCost()), cost);
      assert Keys(rows)[..|rows| - 1] == Keys(init);
    }
  }

  lemma {:induction false} SortHolds(rows: seq<UserRow>, cost: string -> real)
    requires forall r <- rows :: r.agg.counts.costUSD == cost(r.key)
    ensures forall r <- SortDesc(rows, RowCost()) :: r.agg.counts.costUSD == cost(r.key)
  {
    hide SortDesc;
    SortRanks(rows, RowCost());
    forall r <- SortDesc(rows, RowCost()) ensures r in rows {
      assert r in multiset(SortDesc(rows, RowCost()));
    }
  }

  lemma {:induction false} PlaceKeys(r: UserRow, s: seq<UserRow>, cost: string -> real)
    requires r.agg.counts.costUSD == cost(r.key) && forall x <- s :: x.agg.counts.costUSD == cost(x.key)
    ensures Keys(Place(r, s, RowCost())) == Place(r.key, Keys(s), cost)
  {
    if s != [] {
      assert s[0] in s && forall x <- s[1..] :: x in s;
      PlaceKeys(r, s[1..], cost);
      assert Keys(s)[1..] == Keys(s[1..]);
      assert Keys([r] + s) == [r.key] + Keys(s);
      var t := Place(r, s[1..], RowCost());
      assert Keys([s[0]] + t) == [s[0].key] + Keys(t);
    }
  }

  // ---- conservation --------------------------------------------------------

  function SumOver(keys: seq<string>, items: seq<Detail>): Counts {
    if keys == [] then NOTHING else SumOver(keys[..|keys| - 1], items).Plus(Total(Own(items, keys[|keys| - 1])))
  }

  lemma {:induction false} KeysOnce(items: seq<Detail>)
    ensures Distinct(FirstKeys(items)) && forall d <- items :: KeyOf(d) in FirstKeys(items)
  {
    if items != [] {
      KeysOnce(items[..|items| - 1]);
      assert forall d <- items :: d in items[..|items| - 1] || d == items[|items| - 1];
    }
  }

  /** Adding one row to the list adds its counts to exactly one listed user. */
  lemma {:induction false} SumOverExtends(keys: seq<string>, items: seq<Detail>, d: Detail)
    requires Distinct(keys)
    ensures SumOver(keys, items + [d])
       == if KeyOf(d) in keys then SumOver(keys, items).Plus(d.counts) else SumOver(keys, items)
  {
    hide KeyOf, Counts.Plus, Own, Total;
    if keys != [] {
      var n := |keys| - 1;
      SumOverExtends(keys[..n], items, d);
      OwnExtends(items, d, keys[n]);
      PlusSwaps(SumOver(keys[..n], items), d.counts, Total(Own(items, keys[n])));
      PlusSwaps(SumOver(keys[..n], items), Total(Own(items, keys[n])), d.counts);
    }
  }

  lemma {:induction false} OwnExtends(items: seq<Detail>, d: Detail, key: string)
    ensures Total(Own(items + [d], key)) ==
      if KeyOf(d) == key then Total(Own(items, key)).Plus(d.counts) else Total(Own(items, key))
  {
    assert (items + [d])[..|items|] == items;
    var own := Own(items, key);
    assert (own + [d])[..|own|] == own;
  }

  lemma SumOverSnoc(keys: seq<string>, k: string, items: seq<Detail>)
    ensures SumOver(keys + [k], items) == SumOver(keys, items).Plus(Total(Own(items, k)))
  {
    hide Counts.Plus, Own, Total;
    assert (keys + [k])[..|keys|] == keys;
  }

  /** A user's first row brings its own counts. */
  lemma NewUserTotal(items: seq<Detail>, d: Detail)
    requires KeyOf(d) !in FirstKeys(items)
    ensures Total(Own(items + [d], KeyOf(d))) == NOTHING.Plus(d.counts)
  {
    hide KeyOf, Counts.Plus, FirstKeys;
    OwnEmpty(items, KeyOf(d));
    OwnExtends(items, d, KeyOf(d));
  }

  lemma {:induction false} OneMoreRow(items: seq<Detail>, d: Detail)
    requires SumOver(FirstKeys(items), items) == Total(items)
    ensures SumOver(FirstKeys(items + [d]), items + [d]) == Total(items + [d])
  {
    hide KeyOf, Counts.Plus, Own, SumOver;
    var keys, k := FirstKeys(items), KeyOf(d);
    assert (items + [d])[..|items|] == items;
    KeysOnce(items);
    SumOverExtends(keys, items, d);
    if k !in keys {
      SumOverSnoc(keys, k, items + [d]);
      NewUserTotal(items, d);
      PlusSwaps(SumOver(keys, items), NOTHING, d.counts);
    }
  }

  /** Every column's total over the users is its total over the rows. */
  lemma {:induction false} UsersConserve(items: seq<Detail>)
    ensures SumOver(FirstKeys(items), items) == Total(items)
  {
    hide FirstKeys, SumOver, Total;
    if items == [] {
      NoRows();
    } else {
      var init, d := items[..|items| - 1], items[|items| - 1];
      UsersConserve(init);
      OneMoreRow(init, d);
      assert items == init + [d];
    }
  }

  lemma {:induction false} NoRows()
    ensures SumOver(FirstKeys([]), []) == Total([])
  {
  }

  function SumRows(rows: seq<UserRow>): Counts {
    if rows == [] then NOTHING else SumRows(rows[..|rows| - 1]).Plus(rows[|rows| - 1].agg.counts)
  }

  lemma {:induction false} SumRowsIs(rows: seq<UserRow>, items: seq<Detail>)
    requires forall r <- rows :: r.agg.counts == Total(Own(items, r.key))
    ensures SumRows(rows) == SumOver(Keys(rows), items)
  {
    hide Counts.Plus, Own, Total;
    if rows != [] {
      var init := rows[..|rows| - 1];
      assert forall r <- init :: r in rows;
      assert rows[|rows| - 1] in rows;
      SumRowsIs(init, items);
      assert Keys(rows)[..|rows| - 1] == Keys(init);
    }
  }

  lemma {:induction false} SumOverRemove(keys: seq<string>, i: nat, items: seq<Detail>)
    requires i < |keys|
    ensures SumOver(keys, items) == SumOver(keys[..i] + keys[i + 1..], items).Plus(Total(Own(items, keys[i])))
  {
    hide Counts.Plus, Own, Total, SumOver;
    var n := |keys| - 1;
    SumOverSnoc(keys[..n], keys[n], items);
    assert keys == keys[..n] + [keys[n]];
    if i == n {
      assert keys[..i] + keys[i + 1..] == keys[..n];
    } else {
      var rest := keys[..n][..i] + keys[..n][i + 1..];
      SumOverRemove(keys[..n], i, items);
      SumOverSnoc(rest, keys[n], items);
      assert keys[..i] + keys[i + 1..] == rest + [keys[n]];
      PlusSwaps(SumOver(rest, items), Total(Own(items, keys[i])), Total(Own(items, keys[n])));
    }
  }

  lemma {:induction false} SumOverPermutes(a: seq<string>, b: seq<string>, items: seq<Detail>)
    requires multiset(a) == multiset(b)
    ensures SumOver(a, items) == SumOver(b, items)
  {
    hide Counts.Plus, Own, Total;
    if a == [] {
      assert |multiset(b)| == 0;
    } else {
      var n := |a| - 1;
      assert a[n] in multiset(b);
      var i :| 0 <= i < |b| && b[i] == a[n];
      RemoveSame(a, b, i);
      SumOverPermutes(a[..n], b[..i] + b[i + 1..], items);
      SumOverRemove(b, i, items);
    }
  }

  /** What the view shows in total is what the rows hold in total, and every row belongs to exactly one user. */
  lemma {:induction false} TotalsConserved(items: seq<Detail>, rows: seq<UserRow>)
    requires Keys(rows) == UserOrder(items)
    requires forall r <- rows :: r.agg.counts == Total(Own(items, r.key))
    ensures SumRows(rows) == Total(items)
    ensures forall d <- items :: multiset(Keys(rows))[KeyOf(d)] == 1
  {
    SumRowsIs(rows, items);
    SortRanks(FirstKeys(items), CostOf(items));
    SumOverPermutes(UserOrder(items), FirstKeys(items), items);
    UsersConserve(items);
    KeysOnce(items);
    forall d <- items ensures multiset(Keys(rows))[KeyOf(d)] == 1 {
      OnceInMultiset(FirstKeys(items), KeyOf(d));
    }
  }

  lemma {:induction false} OnceInMultiset(keys: seq<string>, k: string)
    requires Distinct(keys) && k in keys
    ensures multiset(keys)[k] == 1
  {
    var n := |keys| - 1;
    assert keys == keys[..n] + [keys[n]];
    if keys[n] == k {
      assert k !in keys[..n];
    } else {
      OnceInMultiset(keys[..n], k);
    }
  }

  // ---- the CSV export ------------------------------------------------------

  datatype Group = Group(displayUser: string, dept: string, ips: set<string>, details: seq<Detail>, totalCost: real)

  /** One line of the export: the group's user, department and addresses, and a row. */
  datatype Line = Line(user: string, dept: string, ips: set<string>, detail: Detail)

  function AllAddresses(own: seq<Detail>): set<string> {
    if own == [] then {} else AllAddresses(own[..|own| - 1]) + Addresses(own[|own| - 1].srcIP)
  }

  /** What the export shows of one user's rows. */
  function GroupOf(own: seq<Detail>): Group {
    Group(if own == [] || own[0].srcUser == "" then "N/A" else own[0].srcUser,
          DeptOf(own), AllAddresses(own), own, Total(own).costUSD)
  }

  predicate Gathered(order: seq<string>, groups: map<string, Group>, items: seq<Detail>) {
    && order == FirstKeys(items)
    && (forall k <- groups :: k in order) && (forall k <- order :: k in groups)
    && (forall k <- groups :: Own(items, k) != [] && groups[k] == GroupOf(Own(items, k)))
  }

  lemma GatheredExtends(order: seq<string>, groups: map<string, Group>, items: seq<Detail>, d: Detail, g: Group)
    requires Gathered(order, groups, items)
    requires var own := if KeyOf(d) in groups then groups[KeyOf(d)].details else [];
      g == GroupOf(own + [d])
    ensures Gathered(if KeyOf(d) in groups then order else order + [KeyOf(d)], groups[KeyOf(d) := g], items + [d])
  {
    hide KeyOf, GroupOf;
    assert (items + [d])[..|items|] == items;
    OwnEmpty(items, KeyOf(d));
    forall k ensures k in groups ==> GroupOf(Own(items, k)).details == Own(items, k) {
      if k in groups {
        DetailsOf(Own(items, k));
      }
    }
  }

  lemma DetailsOf(own: seq<Detail>)
    ensures GroupOf(own).details == own
  {
  }

  lemma GroupExtends(own: seq<Detail>, d: Detail)
    ensures GroupOf(own + [d]) == Group(
      if own == [] then (if d.srcUser == "" then "N/A" else d.srcUser) else GroupOf(own).displayUser,
      if d.srcDepartment != "" then d.srcDepartment else if own == [] then "" else GroupOf(own).dept,
      (if own == [] then {} else GroupOf(own).ips) + Addresses(d.srcIP),
      own + [d],
      (if own == [] then 0.0 else GroupOf(own).totalCost) + d.counts.costUSD)
  {
    hide Addresses;
    assert (own + [d])[..|own|] == own;
    if own == [] {
      assert AllAddresses(own) == {} && DeptOf(own) == "" && Total(own) == NOTHING;
    } else {
      assert (own + [d])[0] == own[0];
    }
  }

  /** Gathers each user's rows, in their original order. */
  method Gather(items: seq<Detail>) returns (groupOrder: seq<string>, groupMap: map<string, Group>)
    ensures Gathered(groupOrder, groupMap, items)
  {
    hide Addresses, GroupOf;
    groupOrder, groupMap := [], map[];
    var i := 0;
    assert items[..0] == [];
    while i < |items|
      invariant 0 <= i <= |items| && Gathered(groupOrder, groupMap, items[..i])
    {
      var item := items[i];
      var key := KeyOf(item);
      ghost var wasOrder, wasMap := groupOrder, groupMap;
      ghost var own := if key in groupMap then groupMap[key].details else [];
      if key !in groupMap {
        var displayUser := item.srcUser;
        if displayUser == "" {
          displayUser := "N/A";
        }
        groupMap := groupMap[key := Group(displayUser, item.srcDepartment, {}, [], 0.0)];
        groupOrder := groupOrder + [key];
      }
      var g := groupMap[key];
      var ips := CollectIPs(g.ips, item.srcIP);
      g := g.(ips := ips);
      if item.srcDepartment != "" {
        g := g.(dept := item.srcDepartment);
      }
      g := g.(details := g.details + [item], totalCost := g.totalCost + item.counts.costUSD);
      groupMap := groupMap[key := g];
      if key in wasMap {
        DetailsOf(Own(items[..i], key));
      }
      GroupExtends(own, item);
      GatheredExtends(wasOrder, wasMap, items[..i], item, g);
      assert items[..i + 1] == items[..i] + [item];
      assert wasMap[key := g] == groupMap;
      i := i + 1;
    }
    assert items[..i] == items;
  }

  function Lines(g: Group): seq<Line> {
    seq(|g.details|, i requires 0 <= i < |g.details| => Line(g.displayUser, g.dept, g.ips, g.details[i]))
  }

  /** The body for some users: each one's rows, together and in order. */
  function BodyOf(keys: seq<string>, items: seq<Detail>): seq<Line> {
    if keys == [] then [] else BodyOf(keys[..|keys| - 1], items) + Lines(GroupOf(Own(items, keys[|keys| - 1])))
  }

  lemma {:induction false} OrderedOwn(items: seq<Detail>)
    ensures forall k <- UserOrder(items) :: k in FirstKeys(items) && Own(items, k) != []
  {
    SortRanks(FirstKeys(items), CostOf(items));
    forall k <- UserOrder(items) ensures k in FirstKeys(items) && Own(items, k) != [] {
      assert k in multiset(UserOrder(items));
      OwnEmpty(items, k);
    }
  }

  /** The export writes the users by falling cost, each one's rows together. */
  method ExportUserTotal(items: seq<Detail>) returns (body: seq<Line>)
    ensures body == BodyOf(UserOrder(items), items)
  {
    hide Own, GroupOf, SortDesc, FirstKeys, Lines, UserOrder, CostOf;
    var groupOrder, groupMap := Gather(items);
    var cost := (k: string) => if k in groupMap then groupMap[k].totalCost else 0.0;
    SortedGroups(items, groupOrder, groupMap, cost);
    groupOrder := SortDesc(groupOrder, cost);
    body := [];
    var i := 0;
    while i < |groupOrder|
      invariant 0 <= i <= |groupOrder|
      invariant body == BodyOf(groupOrder[..i], items)
    {
      assert groupOrder[..i + 1][..i] == groupOrder[..i];
      assert groupOrder[i] in groupOrder;
      body := body + Lines(groupMap[groupOrder[i]]);
      i := i + 1;
    }
    assert groupOrder[..i] == groupOrder;
  }

  lemma {:induction false} SortedGroups(items: seq<Detail>, order: seq<string>, groups: map<string, Group>,
                                        cost: string -> real)
    requires Gathered(order, groups, items)
    requires forall k <- groups :: cost(k) == groups[k].totalCost
    ensures SortDesc(order, cost) == UserOrder(items)
    ensures forall k <- UserOrder(items) :: Own(items, k) != [] && k in groups && groups[k] == GroupOf(Own(items, k))
  {
    hide Own, GroupOf, SortDesc, FirstKeys;
    OrderedOwn(items);
    forall k <- order ensures cost(k) == CostOf(items)(k) {
      CostOfGroup(Own(items, k));
    }
    SortCongruent(order, cost, CostOf(items));
  }

  lemma {:induction false} CostOfGroup(own: seq<Detail>)
    ensures GroupOf(own).totalCost == Total(own).costUSD
  {
  }

  /** Equal costs sort equally. */
  lemma {:induction false} SortCongruent(keys: seq<string>, f: string -> real, g: string -> real)
    requires forall k <- keys :: f(k) == g(k)
    ensures SortDesc(keys, f) == SortDesc(keys, g)
  {
    if keys != [] {
      var init := keys[..|keys| - 1];
      assert forall k <- init :: k in keys;
      SortCongruent(init, f, g);
      SortRanks(init, f);
      forall k <- SortDesc(init, f) ensures f(k) == g(k) {
        assert k in multiset(SortDesc(init, f));
      }
      PlaceCongruent(keys[|keys| - 1], SortDesc(init, f), f, g);
    }
  }

  lemma {:induction false} PlaceCongruent(x: string, s: seq<string>, f: string -> real, g: string -> real)
    requires f(x) == g(x) && forall k <- s :: f(k) == g(k)
    ensures Place(x, s, f) == Place(x, s, g)
  {
    if s != [] {
      assert forall k <- s[1..] :: k in s;
      PlaceCongruent(x, s[1..], f, g);
    }
  }

  function Details(body: seq<Line>): seq<Detail> {
    seq(|body|, i requires 0 <= i < |body| => body[i].detail)
  }

  function Flat(keys: seq<string>, items: seq<Detail>): seq<Detail> {
    if keys == [] then [] else Flat(keys[..|keys| - 1], items) + Own(items, keys[|keys| - 1])
  }

  lemma {:induction false} BodyIsFlat(keys: seq<string>, items: seq<Detail>)
    ensures Details(BodyOf(keys, items)) == Flat(keys, items)
  {
    hide Own, GroupOf, Lines, Details;
    if keys == [] {
      DetailsConcat([], []);
    } else {
      var n := |keys| - 1;
      BodyIsFlat(keys[..n], items);
      DetailsConcat(BodyOf(keys[..n], items), Lines(GroupOf(Own(items, keys[n]))));
      LinesDetails(Own(items, keys[n]));
    }
  }

  lemma DetailsConcat(a: seq<Line>, b: seq<Line>)
    ensures Details(a + b) == Details(a) + Details(b) && Details([]) == []
  {
  }

  lemma LinesDetails(own: seq<Detail>)
    ensures Details(Lines(GroupOf(own))) == own
  {
  }

  lemma {:induction false} OwnKeys(items: seq<Detail>, key: string)
    ensures forall d <- Own(items, key) :: KeyOf(d) == key
  {
    if items != [] {
      OwnKeys(items[..|items| - 1], key);
    }
  }

  lemma {:induction false} FlatExtends(keys: seq<string>, items: seq<Detail>, d: Detail)
    requires Distinct(keys)
    ensures multiset(Flat(keys, items + [d]))
       == multiset(Flat(keys, items)) + if KeyOf(d) in keys then multiset{d} else multiset{}
  {
    hide KeyOf;
    if keys != [] {
      FlatExtends(keys[..|keys| - 1], items, d);
      assert (items + [d])[..|items|] == items;
    }
  }

  lemma {:induction false} FlatOfFirst(items: seq<Detail>)
    ensures multiset(Flat(FirstKeys(items), items)) == multiset(items)
  {
    hide KeyOf, Own, Flat;
    if items == [] {
      FlatSnoc([], "", items);
    } else {
      var init, d := items[..|items| - 1], items[|items| - 1];
      var keys := FirstKeys(init);
      FlatOfFirst(init);
      KeysOnce(init);
      assert items == init + [d];
      FlatExtends(keys, init, d);
      if KeyOf(d) !in keys {
        NewKeyOwns(init, d);
        FlatSnoc(keys, KeyOf(d), items);
      }
    }
  }

  lemma {:induction false} FlatSnoc(keys: seq<string>, k: string, items: seq<Detail>)
    ensures Flat([], items) == [] && Flat(keys + [k], items) == Flat(keys, items) + Own(items, k)
  {
    hide Own;
    assert (keys + [k])[..|keys|] == keys;
  }

  lemma {:induction false} NewKeyOwns(items: seq<Detail>, d: Detail)
    requires KeyOf(d) !in FirstKeys(items)
    ensures Own(items + [d], KeyOf(d)) == [d]
  {
    OwnEmpty(items, KeyOf(d));
    assert (items + [d])[..|items|] == items;
  }

  lemma {:induction false} FlatRemove(keys: seq<string>, i: nat, items: seq<Detail>)
    requires i < |keys|
    ensures multiset(Flat(keys, items))
       == multiset(Flat(keys[..i] + keys[i + 1..], items)) + multiset(Own(items, keys[i]))
  {
    hide Own, Flat;
    var n := |keys| - 1;
    var init := keys[..n];
    FlatSnoc(init, keys[n], items);
    assert keys == init + [keys[n]];
    if i == n {
      assert keys[..i] + keys[i + 1..] == init;
    } else {
      var rest := init[..i] + init[i + 1..];
      FlatRemove(init, i, items);
      FlatSnoc(rest, keys[n], items);
      assert keys[..i] + keys[i + 1..] == rest + [keys[n]];
    }
  }

  lemma {:induction false} FlatPermutes(a: seq<string>, b: seq<string>, items: seq<Detail>)
    requires multiset(a) == multiset(b)
    ensures multiset(Flat(a, items)) == multiset(Flat(b, items))
  {
    hide Own;
    if a == [] {
      assert |multiset(b)| == 0;
    } else {
      var n := |a| - 1;
      assert a[n] in multiset(b);
      var i :| 0 <= i < |b| && b[i] == a[n];
      RemoveSame(a, b, i);
      FlatPermutes(a[..n], b[..i] + b[i + 1..], items);
      FlatRemove(b, i, items);
    }
  }

  /** No row is lost, added or written twice. */
  lemma {:induction false} BodyPermutes(items: seq<Detail>)
    ensures multiset(Details(BodyOf(UserOrder(items), items))) == multiset(items)
  {
    BodyIsFlat(UserOrder(items), items);
    SortRanks(FirstKeys(items), CostOf(items));
    FlatPermutes(UserOrder(items), FirstKeys(items), items);
    FlatOfFirst(items);
  }

  lemma {:induction false} FlatKeys(keys: seq<string>, items: seq<Detail>)
    ensures forall d <- Flat(keys, items) :: KeyOf(d) in keys
  {
    hide KeyOf;
    if keys != [] {
      FlatKeys(keys[..|keys| - 1], items);
      OwnKeys(items, keys[|keys| - 1]);
    }
  }

  lemma {:induction false} BodyContiguous(keys: seq<string>, items: seq<Detail>, key: string) returns (lo: nat, hi: nat)
    requires Distinct(keys) && key in keys
    ensures lo <= hi <= |Flat(keys, items)| && Flat(keys, items)[lo..hi] == Own(items, key)
    ensures forall i | 0 <= i < |Flat(keys, items)| && !(lo <= i < hi) :: KeyOf(Flat(keys, items)[i]) != key
  {
    hide KeyOf, Own;
    var n := |keys| - 1;
    var init, last := Flat(keys[..n], items), Own(items, keys[n]);
    if keys[n] == key {
      lo, hi := |init|, |init| + |last|;
      FlatKeys(keys[..n], items);
      assert forall i | 0 <= i < |init| :: init[i] in init;
    } else {
      lo, hi := BodyContiguous(keys[..n], items, key);
      OwnKeys(items, keys[n]);
      assert forall i | 0 <= i < |last| :: last[i] in last;
      assert (init + last)[lo..hi] == init[lo..hi];
    }
  }

  /** In the exported body each user's rows stand together, in their original order, and nowhere else. */
  lemma UserTogether(items: seq<Detail>, body: seq<Line>, key: string) returns (lo: nat, hi: nat)
    requires body == BodyOf(UserOrder(items), items)
    requires key in FirstKeys(items)
    ensures lo <= hi <= |body| && Details(body)[lo..hi] == Own(items, key)
    ensures forall i | 0 <= i < |body| && !(lo <= i < hi) :: KeyOf(body[i].detail) != key
  {
    hide KeyOf, Own;
    BodyIsFlat(UserOrder(items), items);
    SortRanks(FirstKeys(items), CostOf(items));
    KeysOnce(items);
    PermutedDistinct(FirstKeys(items), UserOrder(items));
    assert key in multiset(UserOrder(items));
    lo, hi := BodyContiguous(UserOrder(items), items, key);
    forall i | 0 <= i < |body| && !(lo <= i < hi) ensures KeyOf(body[i].detail) != key {
      assert Details(body)[i] == Flat(UserOrder(items), items)[i];
    }
  }

  lemma {:induction false} FirstKeysOfFlat(keys: seq<string>, items: seq<Detail>)
    requires Distinct(keys) && forall k <- keys :: Own(items, k) != []
    ensures FirstKeys(Flat(keys, items)) == keys
  {
    hide KeyOf, Own, Flat;
    if keys == [] {
      FlatSnoc([], "", items);
    } else {
      var n := |keys| - 1;
      assert keys[n] in keys && forall k <- keys[..n] :: k in keys;
      FirstKeysOfFlat(keys[..n], items);
      OwnKeys(items, keys[n]);
      FlatSnoc(keys[..n], keys[n], items);
      FirstKeysAppend(Flat(keys[..n], items), Own(items, keys[n]), keys[n]);
      assert keys == keys[..n] + [keys[n]];
    }
  }

  lemma {:induction false} FirstKeysAppend(a: seq<Detail>, b: seq<Detail>, key: string)
    requires b != [] && forall d <- b :: KeyOf(d) == key
    requires key !in FirstKeys(a)
    ensures FirstKeys(a + b) == FirstKeys(a) + [key]
  {
    hide KeyOf;
    var n := |b| - 1;
    assert (a + b)[..|a| + n] == a + b[..n];
    assert b[n] in b && forall d <- b[..n] :: d in b;
    if n > 0 {
      FirstKeysAppend(a, b[..n], key);
    } else {
      assert a + b[..n] == a;
    }
  }

  /** The export and the JSON view rank the users of one row list alike. */
  lemma {:induction false} SameRanking(items: seq<Detail>, rows: seq<UserRow>, body: seq<Line>)
    requires Keys(rows) == UserOrder(items) && body == BodyOf(UserOrder(items), items)
    ensures FirstKeys(Details(body)) == Keys(rows)
  {
    BodyIsFlat(UserOrder(items), items);
    SortRanks(FirstKeys(items), CostOf(items));
    KeysOnce(items);
    PermutedDistinct(FirstKeys(items), UserOrder(items));
    OrderedOwn(items);
    FirstKeysOfFlat(UserOrder(items), items);
  }

  lemma PermutedDistinct(a: seq<string>, b: seq<string>)
    requires Distinct(a) && multiset(a) == multiset(b)
    ensures Distinct(b)
  {
    forall i, j | 0 <= i < j < |b| ensures b[i] != b[j] {
      if b[i] == b[j] {
        assert b == b[..i] + [b[i]] + b[i + 1..j] + [b[j]] + b[j + 1..];
        assert multiset(b)[b[i]] >= 2;
        assert b[i] in multiset(a);
        OnceInMultiset(a, b[i]);
      }
    }
  }
}
