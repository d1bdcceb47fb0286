/**
 The stacked cost chart: agent-by-bucket rows folded into one dense dataset per agent
 (dashboard/svelte/src/lib/costs.ts).
 */
module CostSeries {
  import opened Text

  datatype Row = Row(agent: string, bucket: string, cost: real)

  datatype Granularity = Hour | Day

  datatype Dataset = Dataset(agent: string, data: seq<real>)

  datatype Series = Series(bucketKeys: seq<string>, datasets: seq<Dataset>)

  /** The browser: whitespace, dates, the viewer's calendar and locale. */
  datatype Browser<!Instant> = Browser(
    trim: string -> string,
    isDay: string -> bool,
    parse: string -> Option<Instant>,
    localDay: Instant -> string,
    sortValue: string -> int,
    localeBefore: (string, string) -> bool)

  const UNKNOWN_KEY := "unknown"

  function DimensionKey<T>(b: Browser<T>, raw: string): string {
    if b.trim(raw) == [] then UNKNOWN_KEY else b.trim(raw)
  }

  /** The key a bucket is charted under; None when it is no point in time. */
  function NormalizeBucketKey<T>(b: Browser<T>, raw: string, unit: Granularity): Option<string> {
    if b.isDay(raw) then Some(raw)
    else
      match b.parse(raw)
      case None => None
      case Some(instant) => Some(if unit == Day then b.localDay(instant) else raw)
  }

  /** Where a row lands: its agent and bucket key, or nowhere. */
  function Place<T>(b: Browser<T>, unit: Granularity, row: Row): Option<(string, string)> {
    if b.trim(row.bucket) == [] then None
    else
      match NormalizeBucketKey(b, b.trim(row.bucket), unit)
      case None => None
      case Some(key) => Some((DimensionKey(b, row.agent), key))
  }

  /** The row's agent as it is charted: its trimmed name, or "unknown" for a blank one. */
  ghost predicate Named<T>(b: Browser<T>, row: Row, agent: string) {
    if b.trim(row.agent) == "" then agent == "unknown" else agent == b.trim(row.agent)
  }

  /** The row has a place: its bucket, trimmed, is a day or a point in time, and is charted as it
      stands, but for a point in time on a day chart, which is charted on the viewer's day. */
  ghost predicate Falls<T>(b: Browser<T>, unit: Granularity, row: Row, key: string) {
    var bucket := b.trim(row.bucket);
    && bucket != ""
    && (b.isDay(bucket) ==> key == bucket)
    && (!b.isDay(bucket) ==>
          b.parse(bucket).Some? && key == if unit == Day then b.localDay(b.parse(bucket).value) else bucket)
  }

  lemma {:induction false} PlaceMeans<T>(b: Browser<T>, unit: Granularity, row: Row, agent: string, key: string)
    ensures Place(b, unit, row) == Some((agent, key)) <==> Named(b, row, agent) && Falls(b, unit, row, key)
  {
  }

  // ---------- what the chart must show ----------

  /** What the rows of one agent in one bucket cost together. */
  function Cell<T>(b: Browser<T>, unit: Granularity, rows: seq<Row>, agent: string, key: string): real {
    if rows == [] then 0.0
    else
      var last := rows[|rows| - 1];
      Cell(b, unit, rows[..|rows| - 1], agent, key)
      + (if Place(b, unit, last) == Some((agent, key)) then last.cost else 0.0)
  }

  function AgentCost<T>(b: Browser<T>, unit: Granularity, rows: seq<Row>, agent: string): real {
    if rows == [] then 0.0
    else
      var last := rows[|rows| - 1];
      var place := Place(b, unit, last);
      AgentCost(b, unit, rows[..|rows| - 1], agent) + (if place.Some? && place.value.0 == agent then last.cost else 0.0)
  }

  /** What every row that can be placed costs together. */
  function UsableCost<T>(b: Browser<T>, unit: Granularity, rows: seq<Row>): real {
    if rows == [] then 0.0
    else
      var last := rows[|rows| - 1];
      UsableCost(b, unit, rows[..|rows| - 1]) + (if Place(b, unit, last).Some? then last.cost else 0.0)
  }

  function Places<T>(b: Browser<T>, unit: Granularity, rows: seq<Row>): set<(string, string)> {
    set row | row in rows && Place(b, unit, row).Some? :: Place(b, unit, row).value
  }

  function Agents(places: set<(string, string)>): set<string> {
    set p | p in places :: p.0
  }

  function Keys(places: set<(string, string)>): set<string> {
    set p | p in places :: p.1
  }

  // ---------- stable sorting ----------

  function Insert<T>(x: T, s: seq<T>, before: (T, T) -> bool): seq<T> {
    if s == [] || !before(s[0], x) then [x] + s else [s[0]] + Insert(x, s[1..], before)
  }

  /** The array sort of the host language: stable, by a strict order. */
  function Sorted<T>(s: seq<T>, before: (T, T) -> bool): seq<T> {
    if s == [] then [] else Insert(s[0], Sorted(s[1..], before), before)
  }

  ghost predicate Distinct<T>(s: seq<T>) {
    forall i, j :: 0 <= i < j < |s| ==> s[i] != s[j]
  }

  ghost predicate InOrder<T>(s: seq<T>, before: (T, T) -> bool) {
    forall i, j :: 0 <= i < j < |s| ==> !before(s[j], s[i])
  }

  /** A strict order whose incomparable elements form classes. */
  ghost predicate WeakOrder<T(!new)>(before: (T, T) -> bool) {
    && (forall x, y :: before(x, y) ==> !before(y, x))
    && (forall x, y, z :: !before(x, y) && !before(y, z) ==> !before(x, z))
  }

  lemma {:induction false} InsertAdds<T>(x: T, s: seq<T>, before: (T, T) -> bool)
    ensures multiset(Insert(x, s, before)) == multiset(s) + multiset{x}
  {
    if s == [] {
    } else {
      assert s == [s[0]] + s[1..];
      InsertAdds(x, s[1..], before);
    }
  }

  lemma {:induction false} InsertKeepsOrder<T(!new)>(x: T, s: seq<T>, before: (T, T) -> bool)
    requires WeakOrder(before) && InOrder(s, before)
    ensures InOrder(Insert(x, s, before), before)
  {
    if s == [] {
    } else {
      assert InOrder(s[1..], before);
      InsertKeepsOrder(x, s[1..], before);
      InsertAdds(x, s[1..], before);
      var t := Insert(x, s[1..], before);
      forall j | 0 <= j < |t| && before(s[0], x) ensures !before(t[j], s[0]) {
        assert t[j] in multiset(t);
        assert t[j] in s[1..] || t[j] == x;
      }
    }
  }

  lemma {:induction false} SortedSorts<T(!new)>(s: seq<T>, before: (T, T) -> bool)
    ensures multiset(Sorted(s, before)) == multiset(s)
    ensures WeakOrder(before) ==> InOrder(Sorted(s, before), before)
  {
    if s == [] {
    } else {
      assert s == [s[0]] + s[1..];
      SortedSorts(s[1..], before);
      InsertAdds(s[0], Sorted(s[1..], before), before);
      if WeakOrder(before) {
        InsertKeepsOrder(s[0], Sorted(s[1..], before), before);
      }
    }
  }

  lemma {:induction false} SameElements<T>(s: seq<T>, t: seq<T>)
    requires multiset(s) == multiset(t) && Distinct(s)
    ensures |s| == |t| && Distinct(t) && forall x :: x in t <==> x in s
  {
    assert |s| == |multiset(s)| == |t|;
    forall x ensures x in t <==> x in s {
      assert x in t <==> x in multiset(t);
      assert x in s <==> x in multiset(s);
    }
    forall i, j | 0 <= i < j < |t| ensures t[i] != t[j] {
      if t[i] == t[j] {
        TwiceCounts(t, i, j);
        OnceCounts(s, t[i]);
      }
    }
  }

  lemma {:induction false} TwiceCounts<T>(t: seq<T>, i: nat, j: nat)
    requires i < j < |t| && t[i] == t[j]
    ensures multiset(t)[t[i]] >= 2
  {
    assert t == t[..i] + [t[i]] + t[i + 1..j] + [t[j]] + t[j + 1..];
  }

  lemma {:induction false} OnceCounts<T>(s: seq<T>, x: T)
    requires Distinct(s)
    ensures multiset(s)[x] <= 1
  {
    if s == [] {
    } else {
      assert s == [s[0]] + s[1..];
      OnceCounts(s[1..], x);
      if s[0] == x {
        assert x !in s[1..];
      }
    }
  }

  // ---------- building the series ----------

  type Costs = map<string, map<string, real>>

  /** What the single pass has collected, in the order things were first seen. */
  datatype Collected = Collected(keys: seq<string>, agents: seq<string>, costs: Costs, totals: map<string, real>)

  ghost predicate Lists(s: seq<string>, names: set<string>) {
    Distinct(s) && forall x :: x in s <==> x in names
  }

  ghost predicate CellsAre<T>(b: Browser<T>, unit: Granularity, rows: seq<Row>, costs: Costs) {
    forall a, k :: CostIn(CellsOf(costs, a), k) == Cell(b, unit, rows, a, k)
  }

  ghost predicate TotalsAre<T>(b: Browser<T>, unit: Granularity, rows: seq<Row>, totals: map<string, real>) {
    forall a :: CostIn(totals, a) == AgentCost(b, unit, rows, a)
  }

  ghost predicate Collects<T>(b: Browser<T>, unit: Granularity, rows: seq<Row>, c: Collected) {
    && Lists(c.keys, Keys(Places(b, unit, rows)))
    && Lists(c.agents, Agents(Places(b, unit, rows)))
    && CellsAre(b, unit, rows, c.costs)
    && TotalsAre(b, unit, rows, c.totals)
  }

  /** A missing cell is zero. */
  function CostIn(cells: map<string, real>, key: string): real {
    if key in cells then cells[key] else 0.0
  }

  function CellsOf(costs: Costs, agent: string): map<string, real> {
    if agent in costs then costs[agent] else map[]
  }

  function Noted(s: seq<string>, x: string): seq<string> {
    if x in s then s else s + [x]
  }

  function Charged(costs: map<string, real>, key: string, cost: real): map<string, real> {
    costs[key := CostIn(costs, key) + cost]
  }

  function ChargedCell(costs: Costs, agent: string, key: string, cost: real): Costs {
    costs[agent := Charged(CellsOf(costs, agent), key, cost)]
  }

  /** One row added to what was collected. */
  function Collect(c: Collected, agent: string, key: string, cost: real): Collected {
    Collected(Noted(c.keys, key), Noted(c.agents, agent), ChargedCell(c.costs, agent, key, cost),
              Charged(c.totals, agent, cost))
  }

  lemma {:induction false} PlacesGrow<T>(b: Browser<T>, unit: Granularity, rows: seq<Row>, row: Row)
    ensures Places(b, unit, rows + [row])
            == Places(b, unit, rows) + (if Place(b, unit, row).Some? then {Place(b, unit, row).value} else {})
  {
    var all := rows + [row];
    assert forall r :: r in all <==> r in rows || r == row;
  }

  lemma {:induction false} NamesGrow(places: set<(string, string)>, p: (string, string))
    ensures Agents(places + {p}) == Agents(places) + {p.0}
    ensures Keys(places + {p}) == Keys(places) + {p.1}
  {
    assert forall q :: q in places + {p} <==> q in places || q == p;
  }

  lemma {:induction false} ListsGrow(s: seq<string>, names: set<string>, x: string)
    requires Lists(s, names)
    ensures Lists(Noted(s, x), names + {x})
  {
  }

  lemma {:induction false} CellsGrow<T>(b: Browser<T>, unit: Granularity, rows: seq<Row>, row: Row, costs: Costs)
    requires CellsAre(b, unit, rows, costs) && Place(b, unit, row).Some?
    ensures var (agent, key) := Place(b, unit, row).value;
            CellsAre(b, unit, rows + [row], ChargedCell(costs, agent, key, row.cost))
  {
    var all := rows + [row];
    assert all[..|all| - 1] == rows && all[|all| - 1] == row;
    var (agent, key) := Place(b, unit, row).value;
    var grown := ChargedCell(costs, agent, key, row.cost);
    forall a, k ensures CostIn(CellsOf(grown, a), k) == Cell(b, unit, all, a, k) {
      assert CostIn(CellsOf(costs, a), k) == Cell(b, unit, rows, a, k);
    }
  }

  lemma {:induction false} TotalsGrow<T>(b: Browser<T>, unit: Granularity, rows: seq<Row>, row: Row,
                                         totals: map<string, real>)
    requires TotalsAre(b, unit, rows, totals) && Place(b, unit, row).Some?
    ensures var agent := Place(b, unit, row).value.0;
            TotalsAre(b, unit, rows + [row], Charged(totals, agent, row.cost))
  {
    var all := rows + [row];
    assert all[..|all| - 1] == rows && all[|all| - 1] == row;
    var agent := Place(b, unit, row).value.0;
    var grown := Charged(totals, agent, row.cost);
    forall a ensures CostIn(grown, a) == AgentCost(b, unit, all, a) {
      assert CostIn(totals, a) == AgentCost(b, unit, rows, a);
    }
  }

  lemma {:induction false} SkipKeeps<T>(b: Browser<T>, unit: Granularity, rows: seq<Row>, row: Row, c: Collected)
    requires Collects(b, unit, rows, c) && Place(b, unit, row).None?
    ensures Collects(b, unit, rows + [row], c)
  {
    var all := rows + [row];
    assert all[..|all| - 1] == rows && all[|all| - 1] == row;
    PlacesGrow(b, unit, rows, row);
    assert Places(b, unit, all) == Places(b, unit, rows);
    assert forall a, k :: Cell(b, unit, all, a, k) == Cell(b, unit, rows, a, k);
    assert forall a :: AgentCost(b, unit, all, a) == AgentCost(b, unit, rows, a);
  }

  lemma {:induction false} NamesOfGrown<T>(b: Browser<T>, unit: Granularity, rows: seq<Row>, row: Row)
    requires Place(b, unit, row).Some?
    ensures Keys(Places(b, unit, rows + [row])) == Keys(Places(b, unit, rows)) + {Place(b, unit, row).value.1}
    ensures Agents(Places(b, unit, rows + [row])) == Agents(Places(b, unit, rows)) + {Place(b, unit, row).value.0}
  {
    PlacesGrow(b, unit, rows, row);
    NamesGrow(Places(b, unit, rows), Place(b, unit, row).value);
  }

  lemma {:induction false} CollectKeeps<T>(b: Browser<T>, unit: Granularity, rows: seq<Row>, row: Row, c: Collected)
    requires Collects(b, unit, rows, c) && Place(b, unit, row).Some?
    ensures Collects(b, unit, rows + [row],
                     Collect(c, Place(b, unit, row).value.0, Place(b, unit, row).value.1, row.cost))
  {
    var p := Place(b, unit, row).value;
    NamesOfGrown(b, unit, rows, row);
    ListsGrow(c.keys, Keys(Places(b, unit, rows)), p.1);
    ListsGrow(c.agents, Agents(Places(b, unit, rows)), p.0);
    CellsGrow(b, unit, rows, row, c.costs);
    TotalsGrow(b, unit, rows, row, c.totals);
  }

  /** More expensive agents first, ties by name. */
  function Dearer<T>(b: Browser<T>, totals: map<string, real>): (string, string) -> bool {
    (l, r) => CostIn(totals, l) > CostIn(totals, r) || (CostIn(totals, l) == CostIn(totals, r) && b.localeBefore(l, r))
  }

  function Sooner<T>(b: Browser<T>): (string, string) -> bool {
    (l, r) => b.sortValue(l) < b.sortValue(r)
  }

  function Dense(keys: seq<string>, cells: map<string, real>): seq<real> {
    seq(|keys|, i requires 0 <= i < |keys| => CostIn(cells, keys[i]))
  }

  /** The chart of some rows: one column for each bucket any placed row names, in time
      order; one dataset for each agent, dearest first; every cell the cost of its rows. */
  ghost predicate Charts<T>(b: Browser<T>, unit: Granularity, rows: seq<Row>, s: Series) {
    && Lists(s.bucketKeys, Keys(Places(b, unit, rows)))
    && (forall i, j :: 0 <= i < j < |s.bucketKeys| ==> b.sortValue(s.bucketKeys[i]) <= b.sortValue(s.bucketKeys[j]))
    && Lists(AgentsIn(s), Agents(Places(b, unit, rows)))
    && (WeakOrder(b.localeBefore) ==> Ranked(b, unit, rows, s))
    && forall i :: 0 <= i < |s.datasets| ==> RowOfCells(b, unit, rows, s.bucketKeys, s.datasets[i])
  }

  ghost predicate RowOfCells<T>(b: Browser<T>, unit: Granularity, rows: seq<Row>, keys: seq<string>, d: Dataset) {
    && |d.data| == |keys|
    && forall j :: 0 <= j < |keys| ==> d.data[j] == Cell(b, unit, rows, d.agent, keys[j])
  }

  /** The first agent cost more, or as much and the locale does not put it second. */
  ghost predicate Outranks<T>(b: Browser<T>, first: string, firstUSD: real, second: string, secondUSD: real) {
    firstUSD > secondUSD || (firstUSD == secondUSD && !b.localeBefore(second, first))
  }

  ghost predicate Ranked<T>(b: Browser<T>, unit: Granularity, rows: seq<Row>, s: Series) {
    forall i, j :: 0 <= i < j < |s.datasets| ==>
      Outranks(b, s.datasets[i].agent, AgentCost(b, unit, rows, s.datasets[i].agent),
               s.datasets[j].agent, AgentCost(b, unit, rows, s.datasets[j].agent))
  }

  function AgentsIn(s: Series): seq<string> {
    seq(|s.datasets|, i requires 0 <= i < |s.datasets| => s.datasets[i].agent)
  }

  lemma {:induction false} SortedLists<T>(b: Browser<T>, s: seq<string>, names: set<string>,
                                          before: (string, string) -> bool)
    requires Lists(s, names)
    ensures Lists(Sorted(s, before), names) && (WeakOrder(before) ==> InOrder(Sorted(s, before), before))
  {
    SortedSorts(s, before);
    SameElements(s, Sorted(s, before));
  }

  lemma NothingCollected<T>(b: Browser<T>, unit: Granularity, c: Collected)
    requires c == Collected([], [], map[], map[])
    ensures Collects(b, unit, [], c)
  {
  }

  /** The single pass over the rows. */
  method CollectRows<T>(b: Browser<T>, rows: seq<Row>, unit: Granularity) returns (c: Collected)
    ensures Collects(b, unit, rows, c)
  {
    c := Collected([], [], map[], map[]);
    NothingCollected(b, unit, c);
    for i := 0 to |rows|
      invariant Collects(b, unit, rows[..i], c)
    {
      var place := Place(b, unit, rows[i]);
      assert rows[..i] + [rows[i]] == rows[..i + 1];
      if place.None? {
        SkipKeeps(b, unit, rows[..i], rows[i], c);
      } else {
        CollectKeeps(b, unit, rows[..i], rows[i], c);
        c := Collect(c, place.value.0, place.value.1, rows[i].cost);
      }
    }
    assert rows[..|rows|] == rows;
  }

  method BuildStackedSeries<T>(b: Browser<T>, rows: seq<Row>, unit: Granularity) returns (s: Series)
    ensures Charts(b, unit, rows, s)
    ensures forall row, agent, key | row in rows && Named(b, row, agent) && Falls(b, unit, row, key) ::
              agent in AgentsIn(s) && key in s.bucketKeys
  {
    forall row, agent, key | row in rows && Named(b, row, agent) && Falls(b, unit, row, key)
      ensures agent in Agents(Places(b, unit, rows)) && key in Keys(Places(b, unit, rows))
    {
      PlaceMeans(b, unit, row, agent, key);
      assert (agent, key) in Places(b, unit, rows);
    }
    var c := CollectRows(b, rows, unit);
    var keys := Sorted(c.keys, Sooner(b));
    var ranked := Sorted(c.agents, Dearer(b, c.totals));
    s := Series(keys, seq(|ranked|, j requires 0 <= j < |ranked| =>
      Dataset(ranked[j], Dense(keys, CellsOf(c.costs, ranked[j])))));
    SortedLists(b, c.keys, Keys(Places(b, unit, rows)), Sooner(b));
    SortedLists(b, c.agents, Agents(Places(b, unit, rows)), Dearer(b, c.totals));
    SoonerIsWeak(b);
    ChartOfCollected(b, unit, rows, c, ranked, s);
  }

  lemma SoonerIsWeak<T>(b: Browser<T>)
    ensures WeakOrder(Sooner(b))
  {
  }

  lemma {:induction false} ChartOfCollected<T>(b: Browser<T>, unit: Granularity, rows: seq<Row>, c: Collected,
                                               ranked: seq<string>, s: Series)
    requires Collects(b, unit, rows, c)
    requires Lists(s.bucketKeys, Keys(Places(b, unit, rows))) && InOrder(s.bucketKeys, Sooner(b))
    requires Lists(ranked, Agents(Places(b, unit, rows)))
    requires WeakOrder(Dearer(b, c.totals)) ==> InOrder(ranked, Dearer(b, c.totals))
    requires |s.datasets| == |ranked|
    requires forall j ::
               0 <= j < |ranked| ==>
                 s.datasets[j] == Dataset(ranked[j], Dense(s.bucketKeys, CellsOf(c.costs, ranked[j])))
    ensures Charts(b, unit, rows, s)
  {
    assert AgentsIn(s) == ranked;
    forall i, j | 0 <= i < j < |s.bucketKeys|
      ensures b.sortValue(s.bucketKeys[i]) <= b.sortValue(s.bucketKeys[j])
    {
      assert !Sooner(b)(s.bucketKeys[j], s.bucketKeys[i]);
    }
    if WeakOrder(b.localeBefore) {
      DearerIsWeak(b, c.totals);
      forall i, j | 0 <= i < j < |ranked|
        ensures Outranks(b, ranked[i], AgentCost(b, unit, rows, ranked[i]),
                         ranked[j], AgentCost(b, unit, rows, ranked[j]))
      {
        assert !Dearer(b, c.totals)(ranked[j], ranked[i]);
        assert CostIn(c.totals, ranked[i]) == AgentCost(b, unit, rows, ranked[i]);
        assert CostIn(c.totals, ranked[j]) == AgentCost(b, unit, rows, ranked[j]);
      }
    }
    forall i | 0 <= i < |ranked| ensures RowOfCells(b, unit, rows, s.bucketKeys, s.datasets[i]) {
      assert forall k :: CostIn(CellsOf(c.costs, ranked[i]), k) == Cell(b, unit, rows, ranked[i], k);
    }
  }

  lemma {:induction false} DearerIsWeak<T>(b: Browser<T>, totals: map<string, real>)
    requires WeakOrder(b.localeBefore)
    ensures WeakOrder(Dearer(b, totals))
  {
  }

  // ---------- nothing is lost or counted twice ----------

  function Sum(values: seq<real>): real {
    if values == [] then 0.0 else Sum(values[..|values| - 1]) + values[|values| - 1]
  }

  function Mapped(names: seq<string>, f: string -> real): seq<real> {
    seq(|names|, i requires 0 <= i < |names| => f(names[i]))
  }

  /** Two sums over distinct names that differ at most at one of them. */
  lemma {:induction false} SumChangesAtOne(names: seq<string>, f: string -> real, g: string -> real, at: string,
                                           delta: real)
    requires Distinct(names)
    requires forall x :: x in names && x != at ==> f(x) == g(x)
    requires at in names ==> f(at) == g(at) + delta
    ensures Sum(Mapped(names, f)) == Sum(Mapped(names, g)) + (if at in names then delta else 0.0)
  {
    if names == [] {
    } else {
      var n := |names| - 1;
      var init := names[..n];
      assert Mapped(names, f)[..n] == Mapped(init, f) && Mapped(names, g)[..n] == Mapped(init, g);
      LastIsApart(names);
      SumChangesAtOne(init, f, g, at, delta);
    }
  }

  lemma {:induction false} LastIsApart(names: seq<string>)
    requires Distinct(names) && names != []
    ensures Distinct(names[..|names| - 1]) && names[|names| - 1] !in names[..|names| - 1]
    ensures forall x :: x in names <==> x in names[..|names| - 1] || x == names[|names| - 1]
  {
    assert names == names[..|names| - 1] + [names[|names| - 1]];
  }

  lemma {:induction false} SumOfSame(names: seq<string>, f: string -> real, g: string -> real)
    requires forall x :: x in names ==> f(x) == g(x)
    ensures Sum(Mapped(names, f)) == Sum(Mapped(names, g))
  {
    assert Mapped(names, f) == Mapped(names, g);
  }

  lemma {:induction false} SumOfZeros(names: seq<string>, f: string -> real)
    requires forall x :: x in names ==> f(x) == 0.0
    ensures Sum(Mapped(names, f)) == 0.0
  {
    if names == [] {
    } else {
      var n := |names| - 1;
      assert Mapped(names, f)[..n] == Mapped(names[..n], f);
      SumOfZeros(names[..n], f);
    }
  }

  function CellOf<T>(b: Browser<T>, unit: Granularity, rows: seq<Row>, agent: string): string -> real {
    key => Cell(b, unit, rows, agent, key)
  }

  function CostOf<T>(b: Browser<T>, unit: Granularity, rows: seq<Row>): string -> real {
    agent => AgentCost(b, unit, rows, agent)
  }

  /** An agent's cells over all buckets add up to what its placed rows cost. */
  lemma {:induction false} CellsMakeAgent<T>(b: Browser<T>, unit: Granularity, rows: seq<Row>, agent: string,
                                             keys: seq<string>)
    requires Distinct(keys)
             && forall row :: row in rows && Place(b, unit, row).Some? ==> Place(b, unit, row).value.1 in keys
    ensures Sum(Mapped(keys, CellOf(b, unit, rows, agent))) == AgentCost(b, unit, rows, agent)
  {
    if rows == [] {
      SumOfZeros(keys, CellOf(b, unit, rows, agent));
    } else {
      var init, last := rows[..|rows| - 1], rows[|rows| - 1];
      CellsMakeAgent(b, unit, init, agent, keys);
      var f, g := CellOf(b, unit, rows, agent), CellOf(b, unit, init, agent);
      var place := Place(b, unit, last);
      if place.Some? && place.value.0 == agent {
        assert forall x :: x != place.value.1 ==> f(x) == g(x);
        SumChangesAtOne(keys, f, g, place.value.1, last.cost);
      } else {
        SumOfSame(keys, f, g);
      }
    }
  }

  /** The agents' costs add up to what all placed rows cost. */
  lemma {:induction false} AgentsMakeTotal<T>(b: Browser<T>, unit: Granularity, rows: seq<Row>, agents: seq<string>)
    requires Distinct(agents)
             && forall row :: row in rows && Place(b, unit, row).Some? ==> Place(b, unit, row).value.0 in agents
    ensures Sum(Mapped(agents, CostOf(b, unit, rows))) == UsableCost(b, unit, rows)
  {
    if rows == [] {
      SumOfZeros(agents, CostOf(b, unit, rows));
    } else {
      var init, last := rows[..|rows| - 1], rows[|rows| - 1];
      AgentsMakeTotal(b, unit, init, agents);
      var f, g := CostOf(b, unit, rows), CostOf(b, unit, init);
      var place := Place(b, unit, last);
      if place.Some? {
        assert forall x :: x != place.value.0 ==> f(x) == g(x);
        SumChangesAtOne(agents, f, g, place.value.0, last.cost);
      } else {
        SumOfSame(agents, f, g);
      }
    }
  }

  /** The height of one dataset, and of the whole chart. */
  function Height(d: Dataset): real {
    Sum(d.data)
  }

  function Heights(s: Series): seq<real> {
    seq(|s.datasets|, i requires 0 <= i < |s.datasets| => Height(s.datasets[i]))
  }

  lemma {:induction false} DatasetTotal<T>(b: Browser<T>, unit: Granularity, rows: seq<Row>, s: Series, i: nat)
    requires Charts(b, unit, rows, s) && i < |s.datasets|
    ensures Height(s.datasets[i]) == AgentCost(b, unit, rows, s.datasets[i].agent)
  {
    var d := s.datasets[i];
    assert RowOfCells(b, unit, rows, s.bucketKeys, d);
    assert d.data == Mapped(s.bucketKeys, CellOf(b, unit, rows, d.agent));
    PlacedKeys(b, unit, rows);
    CellsMakeAgent(b, unit, rows, d.agent, s.bucketKeys);
  }

  lemma {:induction false} PlacedKeys<T>(b: Browser<T>, unit: Granularity, rows: seq<Row>)
    ensures forall row :: row in rows && Place(b, unit, row).Some? ==>
              Place(b, unit, row).value.0 in Agents(Places(b, unit, rows))
              && Place(b, unit, row).value.1 in Keys(Places(b, unit, rows))
  {
    assert forall row ::
             row in rows && Place(b, unit, row).Some? ==> Place(b, unit, row).value in Places(b, unit, rows);
  }

  /** All cells together are exactly the cost of the rows that can be placed, and the
      stacks are ranked by the height they show. */
  lemma {:induction false} ChartConservesCost<T>(b: Browser<T>, unit: Granularity, rows: seq<Row>, s: Series)
    requires Charts(b, unit, rows, s)
    ensures Sum(Heights(s)) == UsableCost(b, unit, rows)
    ensures WeakOrder(b.localeBefore) ==>
              forall i, j :: 0 <= i < j < |s.datasets| ==> Height(s.datasets[i]) >= Height(s.datasets[j])
  {
    var agents := AgentsIn(s);
    forall i | 0 <= i < |s.datasets| ensures Height(s.datasets[i]) == AgentCost(b, unit, rows, s.datasets[i].agent) {
      DatasetTotal(b, unit, rows, s, i);
    }
    assert Heights(s) == Mapped(agents, CostOf(b, unit, rows));
    PlacedKeys(b, unit, rows);
    AgentsMakeTotal(b, unit, rows, agents);
  }

  // ---------- days are made of hours ----------

  /** An agent's hour cells that fall on one day. */
  function HoursOn<T>(b: Browser<T>, rows: seq<Row>, agent: string, day: string): string -> real {
    hour => if NormalizeBucketKey(b, hour, Day) == Some(day) then Cell(b, Hour, rows, agent, hour) else 0.0
  }

  /** A row placed by the hour is placed on the day its hour normalises to. */
  lemma {:induction false} PlacedByDay<T>(b: Browser<T>, row: Row)
    ensures Place(b, Hour, row).None? <==> Place(b, Day, row).None?
    ensures Place(b, Hour, row).Some? ==>
              && Place(b, Day, row).value.0 == Place(b, Hour, row).value.0
              && NormalizeBucketKey(b, Place(b, Hour, row).value.1, Day) == Some(Place(b, Day, row).value.1)
  {
  }

  /** For any calendar, each day cell is the sum of the agent's hour cells on that day. */
  lemma {:induction false} DaysAreSumsOfHours<T>(b: Browser<T>, rows: seq<Row>, agent: string, day: string,
                                                 hours: seq<string>)
    requires Distinct(hours)
             && forall row :: row in rows && Place(b, Hour, row).Some? ==> Place(b, Hour, row).value.1 in hours
    ensures Cell(b, Day, rows, agent, day) == Sum(Mapped(hours, HoursOn(b, rows, agent, day)))
  {
    if rows == [] {
      SumOfZeros(hours, HoursOn(b, rows, agent, day));
    } else {
      var init, last := rows[..|rows| - 1], rows[|rows| - 1];
      DaysAreSumsOfHours(b, init, agent, day, hours);
      PlacedByDay(b, last);
      var f, g := HoursOn(b, rows, agent, day), HoursOn(b, init, agent, day);
      var place := Place(b, Hour, last);
      if Place(b, Day, last) == Some((agent, day)) {
        assert forall x :: x != place.value.1 ==> f(x) == g(x);
        SumChangesAtOne(hours, f, g, place.value.1, last.cost);
      } else {
        SumOfSame(hours, f, g);
      }
    }
  }

  /** The day chart and the hour chart of the same rows agree: same stacks, same total,
      and every day cell is the sum of its hours. */
  lemma {:induction false} DayChartFoldsHourChart<T>(b: Browser<T>, rows: seq<Row>, days: Series, hours: Series, i: nat,
                                                     j: nat)
    requires Charts(b, Day, rows, days) && Charts(b, Hour, rows, hours)
    requires i < |days.datasets| && j < |days.bucketKeys|
    ensures j < |days.datasets[i].data|
    ensures days.datasets[i].data[j]
            == Sum(Mapped(hours.bucketKeys, HoursOn(b, rows, days.datasets[i].agent, days.bucketKeys[j])))
    ensures Sum(Heights(days)) == Sum(Heights(hours))
  {
    assert RowOfCells(b, Day, rows, days.bucketKeys, days.datasets[i]);
    PlacedKeys(b, Hour, rows);
    DaysAreSumsOfHours(b, rows, days.datasets[i].agent, days.bucketKeys[j], hours.bucketKeys);
    ChartConservesCost(b, Day, rows, days);
    ChartConservesCost(b, Hour, rows, hours);
    SameUsable(b, rows);
  }

  lemma {:induction false} SameUsable<T>(b: Browser<T>, rows: seq<Row>)
    ensures UsableCost(b, Day, rows) == UsableCost(b, Hour, rows)
  {
    if rows == [] {
    } else {
      PlacedByDay(b, rows[|rows| - 1]);
      SameUsable(b, rows[..|rows| - 1]);
    }
  }
}
