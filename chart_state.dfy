// The in-memory chart table: charts by id, kept in insertion order as a
// Python dict keeps them, with seeding, overwriting and status queries.

module ChartState {
  import opened Common
  import opened Fmca

  /** The table's contents: ids in insertion order and the chart stored for each. */
  datatype Table = Table(order: seq<string>, db: map<string, Chart>)

  /** Each stored id appears exactly once in the insertion order. */
  ghost predicate WellFormed(t: Table)
  {
    NoDuplicates(t.order) && forall id :: id in t.db <==> id in t.order
  }

  /** `chart_db[chart.id] = chart`: a new id goes last, an existing one keeps its place. */
  function Put(t: Table, chart: Chart): (r: Table)
    ensures WellFormed(t) ==> WellFormed(r)
    ensures chart.id in r.db && r.db[chart.id] == chart
    ensures forall id :: id != chart.id ==> (id in r.db <==> id in t.db)
    ensures forall id :: id != chart.id && id in t.db ==> r.db[id] == t.db[id]
  {
    Table(if chart.id in t.db then t.order else t.order + [chart.id], t.db[chart.id := chart])
  }

  /** seed_chart(chart): insert only when absent; answer the stored chart. */
  function Seed(t: Table, chart: Chart): (r: (Table, Chart))
    ensures chart.id in t.db ==> r.0 == t && r.1 == t.db[chart.id]
    ensures chart.id !in t.db ==> r.0 == Put(t, chart) && r.1 == chart
    ensures chart.id in r.0.db && r.1 == r.0.db[chart.id]
  {
    if chart.id in t.db then (t, t.db[chart.id]) else (Put(t, chart), chart)
  }

  /** list(chart_db.values()) */
  function AllCharts(t: Table): (r: seq<Chart>)
    requires WellFormed(t)
    ensures |r| == |t.order|
  {
    seq(|t.order|, i requires 0 <= i < |t.order| => t.db[t.order[i]])
  }

  /** The charts of `cs` with the given status, in order. */
  function WithStatus(cs: seq<Chart>, status: string): (r: seq<Chart>)
    ensures forall c :: c in r <==> c in cs && c.status == status
    ensures multiset(r) <= multiset(cs)
    decreases |cs|
  {
    if cs == [] then []
    else
      var rest := WithStatus(cs[..|cs| - 1], status);
      assert cs == cs[..|cs| - 1] + [cs[|cs| - 1]];
      if cs[|cs| - 1].status == status then rest + [cs[|cs| - 1]] else rest
  }

  // ---------------------------------------------------------------- properties

  /**
   * get_all_charts returns every stored chart once: position i holds the
   * chart stored under the i-th inserted id, and every id has a position.
   */
  lemma {:induction false} AllChartsExactlyOnce(t: Table)
    requires WellFormed(t)
    ensures forall i :: 0 <= i < |t.order| ==> AllCharts(t)[i] == t.db[t.order[i]]
    ensures forall id :: id in t.db ==> exists i :: 0 <= i < |t.order| && t.order[i] == id && AllCharts(t)[i] == t.db[id]
    ensures forall c :: c in AllCharts(t) <==> exists id :: id in t.db && t.db[id] == c
  {
    var r := AllCharts(t);
    forall id | id in t.db
      ensures exists i :: 0 <= i < |t.order| && t.order[i] == id && r[i] == t.db[id]
    {
      var i :| 0 <= i < |t.order| && t.order[i] == id;
      assert r[i] == t.db[id];
    }
    forall c | c in r
      ensures exists id :: id in t.db && t.db[id] == c
    {
      var i :| 0 <= i < |r| && r[i] == c;
      assert t.order[i] in t.db;
    }
  }

  /** The parked and active lists hold exactly the stored charts with that status. */
  lemma {:induction false} StatusQueries(t: Table, status: string)
    requires WellFormed(t)
    ensures forall c :: c in WithStatus(AllCharts(t), status) <==>
      (exists id :: id in t.db && t.db[id] == c) && c.status == status
  {
    AllChartsExactlyOnce(t);
  }

  /** No chart is both parked and active. */
  lemma {:induction false} ParkedActiveDisjoint(t: Table)
    requires WellFormed(t)
    ensures forall c :: !(c in WithStatus(AllCharts(t), "parked") && c in WithStatus(AllCharts(t), "active"))
  {
  }

  /** Seeding twice is the same as seeding once: an existing entry wins. */
  lemma SeedIdempotent(t: Table, chart: Chart, again: Chart)
    requires again.id == chart.id
    ensures Seed(Seed(t, chart).0, again) == Seed(t, chart)
  {
  }

  /** Overwriting an existing id replaces its chart in place in get_all_charts. */
  lemma {:induction false} PutExistingInPlace(t: Table, chart: Chart, p: nat)
    requires WellFormed(t)
    requires p < |t.order| && t.order[p] == chart.id
    ensures AllCharts(Put(t, chart)) == AllCharts(t)[p := chart]
  {
    var a := AllCharts(Put(t, chart));
    var b := AllCharts(t)[p := chart];
    forall i | 0 <= i < |a|
      ensures a[i] == b[i]
    {
      if i != p {
        assert t.order[i] != chart.id;
      }
    }
  }

  /** Writing a new id appends its chart to get_all_charts. */
  lemma {:induction false} PutNewAppends(t: Table, chart: Chart)
    requires WellFormed(t)
    requires chart.id !in t.db
    ensures AllCharts(Put(t, chart)) == AllCharts(t) + [chart]
  {
    var a := AllCharts(Put(t, chart));
    var b := AllCharts(t) + [chart];
    forall i | 0 <= i < |a|
      ensures a[i] == b[i]
    {
      if i < |t.order| {
        assert t.order[i] != chart.id;
      }
    }
  }

  // ---------------------------------------------------------------- the store

  /** chart_db and the functions over it. */
  class ChartDb {
    var order: seq<string>
    var db: map<string, Chart>

    function Contents(): Table
      reads this
    {
      Table(order, db)
    }

    ghost predicate Valid()
      reads this
    {
      WellFormed(Contents())
    }

    constructor ()
      ensures Valid() && db == map[] && order == []
    {
      order := [];
      db := map[];
    }

    method SeedChart(chart: Chart) returns (stored: Chart)
      requires Valid()
      modifies this
      ensures Valid()
      ensures (Contents(), stored) == Seed(old(Contents()), chart)
    {
      if chart.id !in db {
        db := db[chart.id := chart];
        order := order + [chart.id];
      }
      stored := db[chart.id];
    }

    method UpdateChartState(chart: Chart)
      requires Valid()
      modifies this
      ensures Valid()
      ensures Contents() == Put(old(Contents()), chart)
    {
      if chart.id !in db {
        order := order + [chart.id];
      }
      db := db[chart.id := chart];
    }

    function GetAllCharts(): (r: seq<Chart>)
      requires Valid()
      reads this
      ensures |r| == |order|
      ensures forall c :: c in r <==> exists id :: id in db && db[id] == c
    {
      AllChartsExactlyOnce(Contents());
      AllCharts(Contents())
    }

    function GetParkedCharts(): (r: seq<Chart>)
      requires Valid()
      reads this
      ensures forall c :: c in r <==> (exists id :: id in db && db[id] == c) && c.status == "parked"
    {
      StatusQueries(Contents(), "parked");
      WithStatus(AllCharts(Contents()), "parked")
    }

    function GetActiveCharts(): (r: seq<Chart>)
      requires Valid()
      reads this
      ensures forall c :: c in r <==> (exists id :: id in db && db[id] == c) && c.status == "active"
    {
      StatusQueries(Contents(), "active");
      WithStatus(AllCharts(Contents()), "active")
    }
  }
}
