/**
 Every column of the per-user views, said of the detail rows alone: sums column
 by column, the first row's user, the last department given, all addresses and
 vendors, and the earliest and latest times.
 */
module UserColumns {
  import opened Lists
  import opened Order
  import opened Rank
  import opened Users

  /** What one numeric column comes to over the rows of one user. */
  function SumIf(items: seq<Detail>, key: string, column: Counts -> int): int {
    if items == [] then 0
    else
      var d := items[|items| - 1];
      SumIf(items[..|items| - 1], key, column) + if KeyOf(d) == key then column(d.counts) else 0
  }

  function CostIf(items: seq<Detail>, key: string): real {
    if items == [] then 0.0
    else
      var d := items[|items| - 1];
      CostIf(items[..|items| - 1], key) + if KeyOf(d) == key then d.counts.costUSD else 0.0
  }

  /** The counts are, column by column, the sums over the user's rows. */
  predicate SumsUp(c: Counts, items: seq<Detail>, key: string) {
    && c.sessionCount == SumIf(items, key, (x: Counts) => x.sessionCount)
    && c.requestCount == SumIf(items, key, (x: Counts) => x.requestCount)
    && c.uplinkBytes == SumIf(items, key, (x: Counts) => x.uplinkBytes)
    && c.downlinkBytes == SumIf(items, key, (x: Counts) => x.downlinkBytes)
    && c.totalBytes == SumIf(items, key, (x: Counts) => x.totalBytes)
    && c.inputTokens == SumIf(items, key, (x: Counts) => x.inputTokens)
    && c.outputTokens == SumIf(items, key, (x: Counts) => x.outputTokens)
    && c.totalTokens == SumIf(items, key, (x: Counts) => x.totalTokens)
    && c.costUSD == CostIf(items, key)
  }

  lemma {:induction false} TotalSumsUp(items: seq<Detail>, key: string)
    ensures SumsUp(Total(Own(items, key)), items, key)
  {
    hide KeyOf;
    if items != [] {
      var init, d := items[..|items| - 1], items[|items| - 1];
      TotalSumsUp(init, key);
      var own := Own(init, key);
      assert (own + [d])[..|own|] == own;
    }
  }

  /** Row `j` is the user's first. */
  predicate FirstRow(items: seq<Detail>, key: string, j: nat) {
    j < |items| && KeyOf(items[j]) == key && forall m | 0 <= m < j :: KeyOf(items[m]) != key
  }

  predicate HasDept(d: Detail, key: string) {
    KeyOf(d) == key && d.srcDepartment != ""
  }

  /** Row `j` is the user's last one that gives a department. */
  predicate LastDept(items: seq<Detail>, key: string, j: nat) {
    j < |items| && HasDept(items[j], key) && forall m | j < m < |items| :: !HasDept(items[m], key)
  }

  /** The department of a user: the last one given, or none. */
  ghost predicate DeptIs(dept: string, items: seq<Detail>, key: string) {
    if exists d <- items :: HasDept(d, key)
    then exists j: nat :: LastDept(items, key, j) && dept == items[j].srcDepartment
    else dept == ""
  }

  lemma {:induction false} OwnIn(items: seq<Detail>, key: string, d: Detail)
    ensures d in Own(items, key) <==> d in items && KeyOf(d) == key
  {
    hide KeyOf;
    if items != [] {
      var init, x := items[..|items| - 1], items[|items| - 1];
      OwnIn(init, key, d);
      assert items == init + [x];
    }
  }

  lemma {:induction false} OwnFirst(items: seq<Detail>, key: string) returns (j: nat)
    requires Own(items, key) != []
    ensures FirstRow(items, key, j) && Own(items, key)[0] == items[j]
  {
    hide KeyOf;
    var n := |items| - 1;
    if Own(items[..n], key) != [] {
      j := OwnFirst(items[..n], key);
    } else {
      j := n;
      forall m | 0 <= m < n ensures KeyOf(items[m]) != key {
        OwnIn(items[..n], key, items[m]);
        assert items[m] in items[..n];
      }
    }
  }

  lemma DeptSnoc(dept: string, init: seq<Detail>, d: Detail, key: string)
    requires DeptIs(dept, init, key)
    ensures DeptIs(if HasDept(d, key) then d.srcDepartment else dept, init + [d], key)
  {
    hide KeyOf;
    var items := init + [d];
    assert forall x <- items :: x in init || x == d;
    assert d in items && forall x <- init :: x in items;
    if HasDept(d, key) {
      assert LastDept(items, key, |init|);
    } else if exists x <- init :: HasDept(x, key) {
      var j: nat :| LastDept(init, key, j) && dept == init[j].srcDepartment;
      assert LastDept(items, key, j);
    }
  }

  lemma {:induction false} OwnDept(items: seq<Detail>, key: string)
    ensures DeptIs(DeptOf(Own(items, key)), items, key)
  {
    hide KeyOf, DeptIs;
    if items == [] {
      NoDept(key);
    } else {
      var init, d := items[..|items| - 1], items[|items| - 1];
      OwnDept(init, key);
      DeptSnoc(DeptOf(Own(init, key)), init, d, key);
      assert items == init + [d];
      var own := Own(init, key);
      assert (own + [d])[..|own|] == own;
    }
  }

  lemma NoDept(key: string)
    ensures DeptIs("", [], key)
  {
  }

  // ---- the order of the users --------------------------------------------------

  lemma {:induction false} AtCostCongruent(s: seq<string>, f: string -> real, g: string -> real, c: real)
    requires forall k :: f(k) == g(k)
    ensures AtCost(s, f, c) == AtCost(s, g, c)
  {
    if s != [] {
      AtCostCongruent(s[1..], f, g, c);
    }
  }

  /** Both lists of users fall in cost, summed over each one's rows, and keep equal costs in order of first rows. */
  lemma RankedByCost(items: seq<Detail>)
    ensures Ranks(UserOrder(items), FirstKeys(items), (k: string) => CostIf(items, k))
  {
    hide SortDesc, FirstKeys, KeyOf, AtCost;
    var f, g := CostOf(items), (k: string) => CostIf(items, k);
    forall k: string ensures f(k) == g(k) {
      TotalSumsUp(items, k);
    }
    SortRanks(FirstKeys(items), f);
    forall c ensures AtCost(UserOrder(items), g, c) == AtCost(FirstKeys(items), g, c) {
      AtCostCongruent(UserOrder(items), f, g, c);
      AtCostCongruent(FirstKeys(items), f, g, c);
    }
  }

  lemma FirstRowSnoc(init: seq<Detail>, d: Detail, key: string, j: nat)
    ensures FirstRow(init + [d], key, j) <==>
      if j < |init| then FirstRow(init, key, j) else j == |init| && KeyOf(d) == key && Own(init, key) == []
    ensures FirstRow(init, key, j) ==> Own(init, key) != []
  {
    hide KeyOf, Own;
    if FirstRow(init, key, j) {
      OwnIn(init, key, init[j]);
    }
    var items := init + [d];
    assert forall m | 0 <= m < |init| :: items[m] == init[m];
    if Own(init, key) != [] {
      var m := OwnFirst(init, key);
    } else {
      forall m | 0 <= m < |init| ensures KeyOf(init[m]) != key {
        OwnIn(init, key, init[m]);
      }
    }
  }

  /** The users are listed once each, in the order of their first rows. */
  lemma {:induction false} ListedByFirstRow(items: seq<Detail>, i: nat, j: nat, a: nat, b: nat)
    requires i < j < |FirstKeys(items)|
    requires FirstRow(items, FirstKeys(items)[i], a) && FirstRow(items, FirstKeys(items)[j], b)
    ensures a < b && FirstKeys(items)[i] != FirstKeys(items)[j]
  {
    hide KeyOf, Own, FirstRow;
    var init, d := items[..|items| - 1], items[|items| - 1];
    assert items == init + [d];
    var keys := FirstKeys(init);
    OwnEmpty(init, FirstKeys(items)[i]);
    OwnEmpty(init, FirstKeys(items)[j]);
    FirstRowSnoc(init, d, FirstKeys(items)[i], a);
    FirstRowSnoc(init, d, FirstKeys(items)[j], b);
    assert FirstKeys(items)[i] in keys;
    if j < |keys| {
      assert FirstKeys(items)[j] in keys;
      ListedByFirstRow(init, i, j, a, b);
    }
  }

  // ---- the JSON view -----------------------------------------------------------

  /** The addresses of a user's rows. */
  ghost predicate AddressesAre(ips: set<string>, items: seq<Detail>, key: string) {
    forall ip :: ip in ips <==> exists d <- items :: KeyOf(d) == key && ip in Addresses(d.srcIP)
  }

  /** The times lie around those of all the user's rows, an empty first time counting for none, and are among them. */
  ghost predicate TimesAre(first: string, last: string, items: seq<Detail>, key: string) {
    && (forall d <- items | KeyOf(d) == key ::
          (d.firstSeen != "" ==> first != "" && !Less(d.firstSeen, first)) && !Less(last, d.lastSeen))
    && (first != "" ==> exists d <- items :: KeyOf(d) == key && d.firstSeen == first)
    && (last != "" ==> exists d <- items :: KeyOf(d) == key && d.lastSeen == last)
  }

  lemma TimesOfOwn(a: Agg, items: seq<Detail>, key: string)
    requires LeastNonEmpty(a.firstSeen, FirstSeens(Own(items, key)))
    requires Greatest(a.lastSeen, LastSeens(Own(items, key)))
    ensures TimesAre(a.firstSeen, a.lastSeen, items, key)
  {
    hide KeyOf, Own, Less;
    var own := Own(items, key);
    forall d: Detail {
      OwnIn(items, key, d);
    }
    forall d <- items | KeyOf(d) == key
      ensures d.firstSeen != "" ==> a.firstSeen != "" && !Less(d.firstSeen, a.firstSeen)
      ensures !Less(a.lastSeen, d.lastSeen)
    {
      assert d in own && d.firstSeen in FirstSeens(own) && d.lastSeen in LastSeens(own);
      LessExactly(d.firstSeen, a.firstSeen);
      LessExactly(a.lastSeen, d.lastSeen);
    }
  }

  /** A row of the JSON view, column by column. */
  lemma ViewColumns(items: seq<Detail>, r: UserRow)
    requires Aggregates(r.agg, Own(items, r.key))
    ensures exists j: nat :: FirstRow(items, r.key, j) && r.agg.srcUser == items[j].srcUser
    ensures DeptIs(r.agg.srcDept, items, r.key)
    ensures AddressesAre(r.agg.ips, items, r.key)
    ensures forall v :: v in r.agg.vendors <==> exists d <- items :: KeyOf(d) == r.key && d.vendor == v
    ensures SumsUp(r.agg.counts, items, r.key)
    ensures TimesAre(r.agg.firstSeen, r.agg.lastSeen, items, r.key)
  {
    hide KeyOf, Own, Addresses, DeptOf, Total, DeptIs, SumsUp, TimesAre, LeastNonEmpty, Greatest;
    var j := OwnFirst(items, r.key);
    OwnDept(items, r.key);
    TotalSumsUp(items, r.key);
    TimesOfOwn(r.agg, items, r.key);
    forall d: Detail {
      OwnIn(items, r.key, d);
    }
  }

  // ---- the CSV export ----------------------------------------------------------

  lemma {:induction false} AllAddressesOf(own: seq<Detail>, ip: string)
    ensures ip in AllAddresses(own) <==> exists d <- own :: ip in Addresses(d.srcIP)
  {
    hide Addresses;
    if own != [] {
      var init, x := own[..|own| - 1], own[|own| - 1];
      AllAddressesOf(init, ip);
      assert own == init + [x] && x in own && forall d <- init :: d in own;
      assert forall d <- own :: d in init || d == x;
    }
  }

  lemma {:induction false} LineIn(keys: seq<string>, items: seq<Detail>, i: nat) returns (key: string)
    requires i < |BodyOf(keys, items)|
    ensures key in keys && BodyOf(keys, items)[i] in Lines(GroupOf(Own(items, key)))
  {
    hide Own, GroupOf, Lines;
    var n := |keys| - 1;
    if i < |BodyOf(keys[..n], items)| {
      key := LineIn(keys[..n], items, i);
    } else {
      key := keys[n];
    }
  }

  lemma LineShows(own: seq<Detail>, line: Line)
    requires line in Lines(GroupOf(own))
    ensures line.detail in own && line.dept == DeptOf(own) && line.ips == AllAddresses(own)
    ensures line.user == if own[0].srcUser == "" then "N/A" else own[0].srcUser
  {
  }

  /** A line of the export: the columns of its user, beside one of the user's rows. */
  lemma {:induction false} LineColumns(items: seq<Detail>, i: nat)
    requires i < |BodyOf(UserOrder(items), items)|
    ensures var line := BodyOf(UserOrder(items), items)[i];
      var key := KeyOf(line.detail);
      && line.detail in items
      && (exists j: nat :: FirstRow(items, key, j)
            && line.user == if items[j].srcUser == "" then "N/A" else items[j].srcUser)
      && DeptIs(line.dept, items, key)
      && AddressesAre(line.ips, items, key)
  {
    hide KeyOf, Own, Addresses, DeptOf, AllAddresses, DeptIs, UserOrder, BodyOf, Lines, GroupOf;
    var line := BodyOf(UserOrder(items), items)[i];
    var key := LineIn(UserOrder(items), items, i);
    LineShows(Own(items, key), line);
    OwnIn(items, key, line.detail);
    var j := OwnFirst(items, key);
    OwnDept(items, key);
    forall d: Detail {
      OwnIn(items, key, d);
    }
    forall ip ensures ip in line.ips <==> exists d <- items :: KeyOf(d) == key && ip in Addresses(d.srcIP) {
      AllAddressesOf(Own(items, key), ip);
    }
  }
}
