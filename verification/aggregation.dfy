/**
 * The data preparation run once the weather table is loaded: every row gets
 * its `monthYear` key, the distinct cities are listed, and for each city the
 * rows are summed into one rainfall total per month, sorted by month, and
 * appended to the global `monthlyData`.
 *
 * Precipitation and temperature are integers (hundredths of an inch, whole
 * degrees) instead of JavaScript numbers, so that sums are exact.
 */
module Aggregation {
  import opened MonthKeys
  import opened Sequences

  /**
   * One row of the table. `date` (a timestamp), `year` and 0-based `month`
   * are what the host's date parser gives for the row's date string;
   * `monthYear` is filled in by `AnnotateRows`.
   */
  datatype Row = Row(
    city: string,
    date: int,
    year: int,
    month: Month,
    precip: int,
    meanTemp: int,
    monthYear: string)

  /** One bar of the rainfall chart: a city's total precipitation in one month. */
  datatype MonthlyAggregate = MonthlyAggregate(
    city: string,
    monthYear: string,
    date: MonthStamp,
    monthlyRainfall: int)

  /** The row carries the key of its own year and month. */
  predicate KeyedRow(r: Row)
  {
    r.monthYear == MonthKey(r.year, r.month)
  }

  /**
   * Every row carries the key of its own year and month. The trigger keeps the
   * key's definition folded until a proof asks about a particular row.
   */
  predicate Keyed(rows: seq<Row>)
  {
    forall r {:trigger KeyedRow(r)} :: r in rows ==> KeyedRow(r)
  }

  function WithMonthKey(r: Row): Row
  {
    r.(monthYear := MonthKey(r.year, r.month))
  }

  /** The rows after the annotation pass: keyed, and otherwise as they were. */
  function WithMonthKeys(rows: seq<Row>): (r: seq<Row>)
    ensures |r| == |rows| && Keyed(r)
    ensures forall i :: 0 <= i < |r| ==> r[i].(monthYear := rows[i].monthYear) == rows[i]
  {
    seq(|rows|, i requires 0 <= i < |rows| => WithMonthKey(rows[i]))
  }

  /** The annotation loop: each row, in place, gets the key of its year and month. */
  method AnnotateRows(data: array<Row>)
    modifies data
    ensures data[..] == WithMonthKeys(old(data[..]))
  {
    var i := 0;
    while i < data.Length
      invariant 0 <= i <= data.Length
      invariant forall k :: 0 <= k < i ==> data[k] == WithMonthKey(old(data[k]))
      invariant forall k :: i <= k < data.Length ==> data[k] == old(data[k])
    {
      var d := data[i];
      data[i] := d.(monthYear := MonthKey(d.year, d.month));
      i := i + 1;
    }
  }

  function CityColumn(rows: seq<Row>): seq<string>
  {
    seq(|rows|, i requires 0 <= i < |rows| => rows[i].city)
  }

  /** `[...new Set(data.map(d => d.city))]`. */
  function Cities(rows: seq<Row>): seq<string>
  {
    Distinct(CityColumn(rows))
  }

  /** The city list holds every city of the table, and each only once. */
  lemma CitiesOfRows(rows: seq<Row>)
    ensures NoDuplicates(Cities(rows))
    ensures forall c :: c in Cities(rows) <==> exists r :: r in rows && r.city == c
  {
    var col, cs := CityColumn(rows), Cities(rows);
    forall c | c in cs ensures exists r :: r in rows && r.city == c
    {
      var k :| 0 <= k < |col| && col[k] == c;
      assert rows[k] in rows;
    }
    forall c | (exists r :: r in rows && r.city == c) ensures c in cs
    {
      var r :| r in rows && r.city == c;
      var k :| 0 <= k < |rows| && rows[k] == r;
      assert col[k] == c;
    }
  }

  /**
   * The city list is in order of first appearance: before any row of a
   * later-listed city there is a row of each earlier-listed city.
   */
  lemma CitiesInFirstAppearanceOrder(rows: seq<Row>, i: nat, j: nat, k: nat)
    requires i < j < |Cities(rows)| && k < |rows| && rows[k].city == Cities(rows)[j]
    ensures exists e :: 0 <= e < k && rows[e].city == Cities(rows)[i]
  {
    var col, cs := CityColumn(rows), Cities(rows);
    assert col[k] == cs[j];
    FirstAppearanceAt(col, i, j, k);
    var e :| 0 <= e < k && col[..k][e] == cs[i];
    assert rows[e].city == cs[i];
  }

  function IsRowOf(city: string): Row -> bool
  {
    (r: Row) => r.city == city
  }

  function IsAggregateOf(city: string): MonthlyAggregate -> bool
  {
    (a: MonthlyAggregate) => a.city == city
  }

  /** `rows.filter(d => d.city === city)`. */
  function CityRows(rows: seq<Row>, city: string): seq<Row>
  {
    Filter(rows, IsRowOf(city))
  }

  /** `monthlyData.filter(d => d.city === city)`. */
  function CityAggregates(s: seq<MonthlyAggregate>, city: string): seq<MonthlyAggregate>
  {
    Filter(s, IsAggregateOf(city))
  }

  function MonthKeysOf(rows: seq<Row>): seq<string>
  {
    seq(|rows|, i requires 0 <= i < |rows| => rows[i].monthYear)
  }

  function KeysOf(s: seq<MonthlyAggregate>): seq<string>
  {
    seq(|s|, i requires 0 <= i < |s| => s[i].monthYear)
  }

  /** Total precipitation of the rows whose key is `key`. */
  function GroupSum(rows: seq<Row>, key: string): int
  {
    if rows == [] then 0
    else GroupSum(rows[..|rows| - 1], key) + (if rows[|rows| - 1].monthYear == key then rows[|rows| - 1].precip else 0)
  }

  /** Total precipitation of all the rows. */
  function TotalPrecip(rows: seq<Row>): int
  {
    if rows == [] then 0 else TotalPrecip(rows[..|rows| - 1]) + rows[|rows| - 1].precip
  }

  /** Total of the monthly figures of a run of aggregates. */
  function TotalRainfall(s: seq<MonthlyAggregate>): int
  {
    if s == [] then 0 else s[0].monthlyRainfall + TotalRainfall(s[1..])
  }

  predicate KeysParse(keys: seq<string>)
  {
    forall k :: k in keys ==> ParseMonthKey(k).Some?
  }

  /** The record made from one entry of the month-totals dictionary. */
  function Aggregate(city: string, key: string, rows: seq<Row>): MonthlyAggregate
    requires ParseMonthKey(key).Some?
  {
    MonthlyAggregate(city, key, ParseMonthKey(key).value, GroupSum(rows, key))
  }

  /** One record per key, in the order of `keys`. */
  function Records(city: string, keys: seq<string>, rows: seq<Row>): seq<MonthlyAggregate>
    requires KeysParse(keys)
  {
    if keys == [] then []
    else Records(city, keys[..|keys| - 1], rows) + [Aggregate(city, keys[|keys| - 1], rows)]
  }

  predicate Chronological(s: seq<MonthlyAggregate>)
  {
    forall i, j :: 0 <= i < j < |s| ==> s[i].date.Ordinal() <= s[j].date.Ordinal()
  }

  predicate StrictlyChronological(s: seq<MonthlyAggregate>)
  {
    forall i, j :: 0 <= i < j < |s| ==> s[i].date.Ordinal() < s[j].date.Ordinal()
  }

  predicate DistinctMonths(s: seq<MonthlyAggregate>)
  {
    forall i, j :: 0 <= i < j < |s| ==> s[i].date.Ordinal() != s[j].date.Ordinal()
  }

  /** Places `a` before the first element of `s` that is not earlier than it. */
  function Insert(a: MonthlyAggregate, s: seq<MonthlyAggregate>): seq<MonthlyAggregate>
  {
    if s == [] || a.date.Ordinal() <= s[0].date.Ordinal() then [a] + s
    else [s[0]] + Insert(a, s[1..])
  }

  /** `s.sort((a, b) => a.date - b.date)`: a stable sort by month. */
  function SortByDate(s: seq<MonthlyAggregate>): seq<MonthlyAggregate>
  {
    if s == [] then [] else Insert(s[0], SortByDate(s[1..]))
  }

  /**
   * The per-city block that the load step appends to `monthlyData`: one
   * record per month in which the city has rows, sorted by month.
   */
  function CityMonthly(data: seq<Row>, city: string): seq<MonthlyAggregate>
    requires Keyed(data)
  {
    var rows := CityRows(data, city);
    CityRowsKeyed(data, city);
    KeysNameTheirMonths(rows);
    SortByDate(Records(city, Distinct(MonthKeysOf(rows)), rows))
  }

  /** `monthlyData` after the load step: the blocks of `cities`, in that order. */
  function MonthlyData(data: seq<Row>, cities: seq<string>): seq<MonthlyAggregate>
    requires Keyed(data)
  {
    if cities == [] then []
    else MonthlyData(data, cities[..|cities| - 1]) + CityMonthly(data, cities[|cities| - 1])
  }

  /** `totals` holds the total of every key of `rows`, and `keys` lists those keys in insertion order. */
  ghost predicate MonthTotals(totals: map<string, int>, keys: seq<string>, rows: seq<Row>)
  {
    && keys == Distinct(MonthKeysOf(rows))
    && (forall k :: k in totals <==> k in keys)
    && (forall k :: k in totals ==> totals[k] == GroupSum(rows, k))
  }

  /**
   * The `monthlyTotals` dictionary built over a city's rows: the total per key,
   * and the order in which the keys were added.
   */
  method SumByMonth(cityData: seq<Row>) returns (monthlyTotals: map<string, int>, keyOrder: seq<string>)
    ensures MonthTotals(monthlyTotals, keyOrder, cityData)
  {
    // `Object.entries` lists keys that are not array indices (a key always
    // holds a dash) in insertion order, which `keyOrder` records
    monthlyTotals := map[];
    keyOrder := [];
    var i := 0;
    while i < |cityData|
      invariant 0 <= i <= |cityData|
      invariant MonthTotals(monthlyTotals, keyOrder, cityData[..i])
    {
      assert cityData[..i + 1] == cityData[..i] + [cityData[i]];
      monthlyTotals, keyOrder := AddToTotals(monthlyTotals, keyOrder, cityData[..i], cityData[i]);
      i := i + 1;
    }
    assert cityData[..i] == cityData;
  }

  /** One pass of the totals loop: add row `d` to the total under its key. */
  method AddToTotals(monthlyTotals: map<string, int>, keyOrder: seq<string>, ghost rows: seq<Row>, d: Row)
    returns (totals: map<string, int>, keys: seq<string>)
    requires MonthTotals(monthlyTotals, keyOrder, rows)
    ensures MonthTotals(totals, keys, rows + [d])
  {
    AddRowKeys(rows, d);
    var key := d.monthYear;
    totals, keys := monthlyTotals, keyOrder;
    // `!monthlyTotals[key]`: the key is missing or its total is 0
    if key !in totals || totals[key] == 0 {
      if key !in totals {
        keys := keys + [key];
      }
      totals := totals[key := 0];
    }
    assert forall k :: k in totals <==> k in keys;
    assert totals[key] == GroupSum(rows, key);
    totals := totals[key := totals[key] + d.precip];
    forall k | k in totals ensures totals[k] == GroupSum(rows + [d], k)
    {
      AddRowSum(rows, d, k);
    }
  }

  /**
   * `Object.entries(monthlyTotals).map(...)`: one record per key, in key order,
   * dated by the month its key names.
   */
  method ToRecords(city: string, keyOrder: seq<string>, monthlyTotals: map<string, int>, ghost rows: seq<Row>)
    returns (records: seq<MonthlyAggregate>)
    requires KeysParse(keyOrder)
    requires forall k :: k in keyOrder ==> k in monthlyTotals && monthlyTotals[k] == GroupSum(rows, k)
    ensures records == Records(city, keyOrder, rows)
  {
    records := [];
    var j := 0;
    while j < |keyOrder|
      invariant 0 <= j <= |keyOrder|
      invariant records == Records(city, keyOrder[..j], rows)
    {
      var key := keyOrder[j];
      assert keyOrder[..j + 1][..j] == keyOrder[..j];
      var date := ParseMonthKey(key).value;
      records := records + [MonthlyAggregate(city, key, date, monthlyTotals[key])];
      j := j + 1;
    }
    assert keyOrder[..j] == keyOrder;
  }

  /**
   * The per-city aggregation: filter the city's rows, total them per month,
   * turn the entries into records and sort them by month.
   */
  method AggregateCity(data: seq<Row>, city: string) returns (cityMonthly: seq<MonthlyAggregate>)
    requires Keyed(data)
    ensures cityMonthly == CityMonthly(data, city)
  {
    var cityData := CityRows(data, city);
    CityRowsKeyed(data, city);
    KeysNameTheirMonths(cityData);
    var monthlyTotals, keyOrder := SumByMonth(cityData);
    var records := ToRecords(city, keyOrder, monthlyTotals, cityData);
    cityMonthly := SortByDate(records);
  }

  /** The loop over the cities: each city's block, one after the other, in city order. */
  method AggregateAll(data: seq<Row>, cities: seq<string>) returns (monthlyData: seq<MonthlyAggregate>)
    requires Keyed(data)
    ensures monthlyData == MonthlyData(data, cities)
  {
    monthlyData := [];
    var i := 0;
    while i < |cities|
      invariant 0 <= i <= |cities|
      invariant monthlyData == MonthlyData(data, cities[..i])
    {
      var cityMonthly := AggregateCity(data, cities[i]);
      assert cities[..i + 1] == cities[..i] + [cities[i]];
      MonthlyDataAppend(data, cities[..i], cities[i]);
      monthlyData := monthlyData + cityMonthly;
      i := i + 1;
    }
    assert cities[..i] == cities;
  }

  // ----- Lemmas -----

  /** One more city appends its block. */
  lemma MonthlyDataAppend(data: seq<Row>, cities: seq<string>, city: string)
    requires Keyed(data)
    ensures MonthlyData(data, cities + [city]) == MonthlyData(data, cities) + CityMonthly(data, city)
  {
    assert (cities + [city])[..|cities|] == cities;
  }

  /** A city's rows are the rows of the table with that city, in table order. */
  lemma CityRowsMembers(data: seq<Row>, city: string)
    ensures forall r :: r in CityRows(data, city) <==> r in data && r.city == city
  {
    FilterMembers(data, IsRowOf(city));
  }

  /** A city's rows of a keyed table are keyed. */
  lemma CityRowsKeyed(data: seq<Row>, city: string)
    requires Keyed(data)
    ensures Keyed(CityRows(data, city))
  {
    CityRowsMembers(data, city);
    forall r | r in CityRows(data, city) ensures KeyedRow(r)
    {
      assert r in data;
    }
  }

  /** Each key of a keyed row parses back to the month it was made from. */
  lemma KeysNameTheirMonths(rows: seq<Row>)
    requires Keyed(rows)
    ensures KeysParse(MonthKeysOf(rows))
    ensures forall k :: k in MonthKeysOf(rows) ==>
      MonthKey(ParseMonthKey(k).value.year, ParseMonthKey(k).value.month) == k
  {
    forall k | k in MonthKeysOf(rows)
      ensures ParseMonthKey(k).Some?
      ensures MonthKey(ParseMonthKey(k).value.year, ParseMonthKey(k).value.month) == k
    {
      var i :| 0 <= i < |rows| && rows[i].monthYear == k;
      assert rows[i] in rows && KeyedRow(rows[i]);
      MonthKeyRoundTrip(rows[i].year, rows[i].month);
    }
  }

  /** One more row lists its key after the others, unless the key is already listed. */
  lemma AddRowKeys(rows: seq<Row>, d: Row)
    ensures Distinct(MonthKeysOf(rows + [d])) ==
      if d.monthYear in Distinct(MonthKeysOf(rows)) then Distinct(MonthKeysOf(rows))
      else Distinct(MonthKeysOf(rows)) + [d.monthYear]
    ensures d.monthYear !in Distinct(MonthKeysOf(rows)) ==> GroupSum(rows, d.monthYear) == 0
  {
    var ks := MonthKeysOf(rows + [d]);
    assert ks[..|ks| - 1] == MonthKeysOf(rows);
    if d.monthYear !in MonthKeysOf(rows) {
      GroupSumAbsent(rows, d.monthYear);
    }
  }

  /** One more row adds its precipitation to the total of its own key only. */
  lemma AddRowSum(rows: seq<Row>, d: Row, k: string)
    ensures GroupSum(rows + [d], k) == GroupSum(rows, k) + (if k == d.monthYear then d.precip else 0)
  {
    assert (rows + [d])[..|rows|] == rows;
  }

  lemma {:induction false} GroupSumAbsent(rows: seq<Row>, key: string)
    requires key !in MonthKeysOf(rows)
    ensures GroupSum(rows, key) == 0
  {
    if rows != [] {
      var init := rows[..|rows| - 1];
      assert forall i :: 0 <= i < |init| ==> MonthKeysOf(init)[i] == MonthKeysOf(rows)[i];
      assert MonthKeysOf(rows)[|rows| - 1] == rows[|rows| - 1].monthYear;
      GroupSumAbsent(init, key);
    }
  }

  lemma {:induction false} TotalRainfallAppend(a: seq<MonthlyAggregate>, b: seq<MonthlyAggregate>)
    ensures TotalRainfall(a + b) == TotalRainfall(a) + TotalRainfall(b)
  {
    if a != [] {
      assert (a + b)[1..] == a[1..] + b;
      TotalRainfallAppend(a[1..], b);
    } else {
      assert a + b == b;
    }
  }

  /** The records list the keys in order, each with the total of the rows under it. */
  lemma {:induction false} RecordsAt(city: string, keys: seq<string>, rows: seq<Row>)
    requires KeysParse(keys)
    ensures |Records(city, keys, rows)| == |keys|
    ensures forall i :: 0 <= i < |keys| ==> Records(city, keys, rows)[i] == Aggregate(city, keys[i], rows)
  {
    if keys != [] {
      RecordsAt(city, keys[..|keys| - 1], rows);
    }
  }

  /** Adding one row to the table adds its precipitation to the total of the records iff its key is listed. */
  lemma {:induction false} RecordsAddRow(city: string, keys: seq<string>, rows: seq<Row>, r: Row)
    requires KeysParse(keys) && NoDuplicates(keys)
    ensures TotalRainfall(Records(city, keys, rows + [r]))
      == TotalRainfall(Records(city, keys, rows)) + (if r.monthYear in keys then r.precip else 0)
  {
    if keys != [] {
      var ks, k := keys[..|keys| - 1], keys[|keys| - 1];
      RecordsAddRow(city, ks, rows, r);
      TotalRainfallAppend(Records(city, ks, rows + [r]), [Aggregate(city, k, rows + [r])]);
      TotalRainfallAppend(Records(city, ks, rows), [Aggregate(city, k, rows)]);
      assert (rows + [r])[..|rows|] == rows;
      assert k !in ks;
      assert keys == ks + [k];
    }
  }

  /** The records of all keys of a table, one per distinct key, add up to the table's total. */
  lemma {:induction false} RecordsCoverTotal(city: string, rows: seq<Row>)
    requires KeysParse(MonthKeysOf(rows))
    ensures TotalRainfall(Records(city, Distinct(MonthKeysOf(rows)), rows)) == TotalPrecip(rows)
  {
    if rows != [] {
      var init, r := rows[..|rows| - 1], rows[|rows| - 1];
      assert rows == init + [r];
      var ks := MonthKeysOf(rows);
      assert ks[..|ks| - 1] == MonthKeysOf(init);
      assert ks[|ks| - 1] == r.monthYear;
      RecordsCoverTotal(city, init);
      var k0 := Distinct(MonthKeysOf(init));
      RecordsAddRow(city, k0, init, r);
      if r.monthYear !in k0 {
        assert Distinct(ks) == k0 + [r.monthYear];
        assert (k0 + [r.monthYear])[..|k0|] == k0;
        TotalRainfallAppend(Records(city, k0, rows), [Aggregate(city, r.monthYear, rows)]);
        GroupSumAbsent(init, r.monthYear);
      }
    }
  }

  /** Inserting adds `a` and keeps every element. */
  lemma InsertMembers(a: MonthlyAggregate, s: seq<MonthlyAggregate>)
    ensures forall x :: x in Insert(a, s) <==> x == a || x in s
  {
    InsertAdds(a, s);
    forall x ensures x in Insert(a, s) <==> x == a || x in s
    {
      assert x in Insert(a, s) <==> x in multiset(Insert(a, s));
      assert x in s <==> x in multiset(s);
    }
  }

  /** Inserting into a run in month order keeps it in month order. */
  lemma {:induction false} InsertOrdered(a: MonthlyAggregate, s: seq<MonthlyAggregate>)
    requires Chronological(s)
    ensures Chronological(Insert(a, s))
  {
    if s != [] && a.date.Ordinal() > s[0].date.Ordinal() {
      var t := Insert(a, s[1..]);
      InsertOrdered(a, s[1..]);
      InsertMembers(a, s[1..]);
      forall k | 0 <= k < |t| ensures s[0].date.Ordinal() <= t[k].date.Ordinal()
      {
        assert t[k] in t;
        if t[k] != a {
          var e :| 0 <= e < |s[1..]| && s[1..][e] == t[k];
          assert s[e + 1] == t[k];
        }
      }
    }
  }

  /** Inserting a new month into a strictly ordered run keeps it strictly ordered. */
  lemma {:induction false} InsertStrict(a: MonthlyAggregate, s: seq<MonthlyAggregate>)
    requires StrictlyChronological(s)
    requires forall b :: b in s ==> b.date.Ordinal() != a.date.Ordinal()
    ensures StrictlyChronological(Insert(a, s))
  {
    if s != [] && a.date.Ordinal() > s[0].date.Ordinal() {
      var t := Insert(a, s[1..]);
      InsertStrict(a, s[1..]);
      InsertMembers(a, s[1..]);
      forall k | 0 <= k < |t| ensures s[0].date.Ordinal() < t[k].date.Ordinal()
      {
        assert t[k] in t;
        if t[k] != a {
          var e :| 0 <= e < |s[1..]| && s[1..][e] == t[k];
          assert s[e + 1] == t[k];
        }
      }
    } else if s != [] {
      assert s[0] in s;
    }
  }

  /** Inserting adds one copy of `a` and adds its figure to the total. */
  lemma InsertAdds(a: MonthlyAggregate, s: seq<MonthlyAggregate>)
    ensures multiset(Insert(a, s)) == multiset(s) + multiset{a}
    ensures TotalRainfall(Insert(a, s)) == a.monthlyRainfall + TotalRainfall(s)
  {
    InsertPermutes(a, s);
    InsertTotal(a, s);
  }

  lemma {:induction false} InsertPermutes(a: MonthlyAggregate, s: seq<MonthlyAggregate>)
    ensures multiset(Insert(a, s)) == multiset(s) + multiset{a}
  {
    if s != [] && a.date.Ordinal() > s[0].date.Ordinal() {
      InsertPermutes(a, s[1..]);
      assert s == [s[0]] + s[1..];
    }
  }

  lemma {:induction false} InsertTotal(a: MonthlyAggregate, s: seq<MonthlyAggregate>)
    ensures TotalRainfall(Insert(a, s)) == a.monthlyRainfall + TotalRainfall(s)
  {
    if s == [] || a.date.Ordinal() <= s[0].date.Ordinal() {
      assert ([a] + s)[1..] == s;
    } else {
      var t := Insert(a, s[1..]);
      InsertTotal(a, s[1..]);
      assert ([s[0]] + t)[1..] == t;
    }
  }

  /** The sort is a permutation into month order that keeps the total. */
  lemma {:induction false} SortByDateFacts(s: seq<MonthlyAggregate>)
    ensures multiset(SortByDate(s)) == multiset(s) && |SortByDate(s)| == |s|
    ensures Chronological(SortByDate(s))
    ensures TotalRainfall(SortByDate(s)) == TotalRainfall(s)
  {
    if s != [] {
      var t := SortByDate(s[1..]);
      SortByDateFacts(s[1..]);
      InsertAdds(s[0], t);
      InsertOrdered(s[0], t);
      assert s == [s[0]] + s[1..];
    }
  }

  /** When no two records share a month, the sorted run is strictly increasing. */
  lemma {:induction false} SortByDateStrict(s: seq<MonthlyAggregate>)
    requires DistinctMonths(s)
    ensures StrictlyChronological(SortByDate(s))
  {
    if s != [] {
      var t := SortByDate(s[1..]);
      SortByDateStrict(s[1..]);
      SortByDateFacts(s[1..]);
      forall b | b in t ensures b.date.Ordinal() != s[0].date.Ordinal()
      {
        assert b in multiset(s[1..]);
        var k :| 0 <= k < |s[1..]| && s[1..][k] == b;
        assert s[k + 1] == b;
      }
      InsertStrict(s[0], t);
    }
  }

  /** Every record of a city's block belongs to that city. */
  lemma CityMonthlyCity(data: seq<Row>, city: string)
    requires Keyed(data)
    ensures forall a :: a in CityMonthly(data, city) ==> a.city == city
  {
    CityMonthlyRecords(data, city);
  }

  /**
   * Each record of a city's block names a month of that city's rows by its
   * key, and holds the total precipitation of exactly that city's rows with
   * that key.
   */
  lemma CityMonthlyRecords(data: seq<Row>, city: string)
    requires Keyed(data)
    ensures forall a :: a in CityMonthly(data, city) ==>
      && a.city == city
      && a.monthYear in MonthKeysOf(CityRows(data, city))
      && a.monthYear == MonthKey(a.date.year, a.date.month)
      && a.monthlyRainfall == GroupSum(CityRows(data, city), a.monthYear)
  {
    var rows := CityRows(data, city);
    CityRowsKeyed(data, city);
    KeysNameTheirMonths(rows);
    var keys := Distinct(MonthKeysOf(rows));
    var recs := Records(city, keys, rows);
    RecordsAt(city, keys, rows);
    SortByDateFacts(recs);
    forall a | a in CityMonthly(data, city)
      ensures a.city == city && a.monthYear in MonthKeysOf(rows)
      ensures a.monthYear == MonthKey(a.date.year, a.date.month)
      ensures a.monthlyRainfall == GroupSum(rows, a.monthYear)
    {
      assert a in multiset(recs);
      var i :| 0 <= i < |recs| && recs[i] == a;
      assert keys[i] in keys;
    }
  }

  /** Records of distinct keys that name their months fall in distinct months. */
  lemma RecordsDistinctMonths(city: string, keys: seq<string>, rows: seq<Row>)
    requires KeysParse(keys) && NoDuplicates(keys)
    requires forall k :: k in keys ==> MonthKey(ParseMonthKey(k).value.year, ParseMonthKey(k).value.month) == k
    ensures DistinctMonths(Records(city, keys, rows))
  {
    var recs := Records(city, keys, rows);
    RecordsAt(city, keys, rows);
    forall i, j | 0 <= i < j < |recs| ensures recs[i].date.Ordinal() != recs[j].date.Ordinal()
    {
      assert keys[i] in keys && keys[j] in keys;
      OrdinalChronological(recs[i].date, recs[j].date);
    }
  }

  /** A city's block is in strictly increasing month order. */
  lemma CityMonthlyOrdered(data: seq<Row>, city: string)
    requires Keyed(data)
    ensures StrictlyChronological(CityMonthly(data, city))
  {
    var rows := CityRows(data, city);
    CityRowsKeyed(data, city);
    KeysNameTheirMonths(rows);
    var keys := Distinct(MonthKeysOf(rows));
    RecordsDistinctMonths(city, keys, rows);
    SortByDateStrict(Records(city, keys, rows));
  }

  /** Every month in which a city has a row has a record in the city's block. */
  lemma CityMonthlyCoversKeys(data: seq<Row>, city: string)
    requires Keyed(data)
    ensures forall k :: k in MonthKeysOf(CityRows(data, city)) ==> k in KeysOf(CityMonthly(data, city))
  {
    var rows := CityRows(data, city);
    CityRowsKeyed(data, city);
    KeysNameTheirMonths(rows);
    var keys := Distinct(MonthKeysOf(rows));
    var recs := Records(city, keys, rows);
    var s := CityMonthly(data, city);
    RecordsAt(city, keys, rows);
    SortByDateFacts(recs);
    forall k | k in MonthKeysOf(rows) ensures k in KeysOf(s)
    {
      var i :| 0 <= i < |keys| && keys[i] == k;
      assert recs[i].monthYear == k;
      assert recs[i] in multiset(s);
      KeyOfMember(s, recs[i]);
    }
  }

  /** The key of every member of a run is among the run's keys. */
  lemma KeyOfMember(s: seq<MonthlyAggregate>, a: MonthlyAggregate)
    requires a in s
    ensures a.monthYear in KeysOf(s)
  {
    var j :| 0 <= j < |s| && s[j] == a;
    assert KeysOf(s)[j] == a.monthYear;
  }

  /**
   * A city's block has one record for every month in which the city has a
   * row, and none for any other month.
   */
  lemma CityMonthlyKeys(data: seq<Row>, city: string)
    requires Keyed(data)
    ensures forall k :: k in KeysOf(CityMonthly(data, city)) <==> k in MonthKeysOf(CityRows(data, city))
  {
    var s := CityMonthly(data, city);
    CityMonthlyCoversKeys(data, city);
    CityMonthlyRecords(data, city);
    forall k | k in KeysOf(s) ensures k in MonthKeysOf(CityRows(data, city))
    {
      var j :| 0 <= j < |s| && s[j].monthYear == k;
      assert s[j] in s;
    }
  }

  /** No month appears twice in a city's block. */
  lemma CityMonthlyUnique(data: seq<Row>, city: string)
    requires Keyed(data)
    ensures NoDuplicates(KeysOf(CityMonthly(data, city)))
  {
    var s := CityMonthly(data, city);
    CityMonthlyRecords(data, city);
    CityMonthlyOrdered(data, city);
    forall i, j | 0 <= i < j < |s| ensures KeysOf(s)[i] != KeysOf(s)[j]
    {
      var a, b := s[i], s[j];
      assert a in s && b in s;
      MonthKeyInjective(a.date.year, a.date.month, b.date.year, b.date.month);
      OrdinalChronological(a.date, b.date);
    }
  }

  /** A city's monthly totals add up to the city's total raw precipitation. */
  lemma CityMonthlyTotal(data: seq<Row>, city: string)
    requires Keyed(data)
    ensures TotalRainfall(CityMonthly(data, city)) == TotalPrecip(CityRows(data, city))
  {
    var rows := CityRows(data, city);
    CityRowsKeyed(data, city);
    KeysNameTheirMonths(rows);
    var recs := Records(city, Distinct(MonthKeysOf(rows)), rows);
    SortByDateFacts(recs);
    RecordsCoverTotal(city, rows);
  }

  /** A city with at least one row has a non-empty block, and a city without rows an empty one. */
  lemma CityMonthlyNonEmpty(data: seq<Row>, city: string)
    requires Keyed(data)
    ensures CityMonthly(data, city) != [] <==> exists r :: r in data && r.city == city
  {
    var rows := CityRows(data, city);
    CityRowsKeyed(data, city);
    KeysNameTheirMonths(rows);
    var keys := Distinct(MonthKeysOf(rows));
    RecordsAt(city, keys, rows);
    SortByDateFacts(Records(city, keys, rows));
    CityRowsMembers(data, city);
    if rows != [] {
      assert rows[0] in rows;
    }
    if r :| r in data && r.city == city {
      assert r in rows;
      var i :| 0 <= i < |rows| && rows[i] == r;
      assert MonthKeysOf(rows)[i] in keys;
    }
  }

  /**
   * Selecting a city in `monthlyData` yields exactly that city's block when
   * the city is listed once, and nothing when it is not listed.
   */
  lemma {:induction false} SelectedCityBlock(data: seq<Row>, cities: seq<string>, city: string)
    requires Keyed(data) && NoDuplicates(cities)
    ensures CityAggregates(MonthlyData(data, cities), city)
      == if city in cities then CityMonthly(data, city) else []
  {
    if cities != [] {
      var cs, last := cities[..|cities| - 1], cities[|cities| - 1];
      assert cities == cs + [last];
      SelectedCityBlock(data, cs, city);
      FilterAppend(MonthlyData(data, cs), CityMonthly(data, last), IsAggregateOf(city));
      CityMonthlyCity(data, last);
      if last == city {
        FilterAll(CityMonthly(data, last), IsAggregateOf(city));
      } else {
        FilterNone(CityMonthly(data, last), IsAggregateOf(city));
      }
    }
  }

  /** A city has records in `monthlyData` exactly when it has rows in the table. */
  lemma MonthlyDataCities(data: seq<Row>, city: string)
    requires Keyed(data)
    ensures (exists a :: a in MonthlyData(data, Cities(data)) && a.city == city)
      <==> (exists r :: r in data && r.city == city)
  {
    var cities := Cities(data);
    var md := MonthlyData(data, cities);
    CitiesOfRows(data);
    SelectedCityBlock(data, cities, city);
    CityMonthlyNonEmpty(data, city);
    var sel := CityAggregates(md, city);
    FilterMembers(md, IsAggregateOf(city));
    if sel != [] {
      assert sel[0] in sel;
    }
    if a :| a in md && a.city == city {
      assert a in sel;
    }
  }
}
