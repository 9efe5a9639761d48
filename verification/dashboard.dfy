/**
 * The state the dashboard keeps after loading: the global row table, the
 * monthly aggregates and the city list, and for each chart the scale domains
 * and the data its marks are bound to. A change of the city picker either
 * redraws both charts for the chosen city or clears both.
 */
module Dashboard {
  import opened Wrappers
  import opened MonthKeys
  import opened Sequences
  import opened Aggregation

  /** A linear scale's domain `[lo, hi]`; `None` is an `undefined` end. */
  datatype Domain = Domain(lo: Option<int>, hi: Option<int>)

  /** `d3.extent(values)`: the least and the greatest value, both `undefined` for no values. */
  function Extent(values: seq<int>): (d: Domain)
    ensures d.lo.None? <==> values == []
    ensures d.hi.None? <==> values == []
    ensures values != [] ==>
      && d.lo.value in values && d.hi.value in values
      && forall v :: v in values ==> d.lo.value <= v <= d.hi.value
  {
    Domain(Minimum(values), Maximum(values))
  }

  function Rainfalls(s: seq<MonthlyAggregate>): seq<int>
  {
    seq(|s|, i requires 0 <= i < |s| => s[i].monthlyRainfall)
  }

  function Dates(rows: seq<Row>): seq<int>
  {
    seq(|rows|, i requires 0 <= i < |rows| => rows[i].date)
  }

  function MeanTemps(rows: seq<Row>): seq<int>
  {
    seq(|rows|, i requires 0 <= i < |rows| => rows[i].meanTemp)
  }

  /**
   * The rainfall chart's band domain: each record's month as `year-MM`, in
   * record order; `d3.timeFormat("%Y-%m")` prints the same string for a
   * four-digit year (1000-9999) at UTC or east of it.
   */
  function RainfallXDomain(cityData: seq<MonthlyAggregate>): seq<string>
  {
    seq(|cityData|, i requires 0 <= i < |cityData| => MonthKey(cityData[i].date.year, cityData[i].date.month))
  }

  /** The rainfall chart's value domain: from 0 to the largest monthly total. */
  function RainfallYDomain(cityData: seq<MonthlyAggregate>): Domain
  {
    Domain(Some(0), Maximum(Rainfalls(cityData)))
  }

  /** The temperature chart's time domain: the extent of the rows' dates. */
  function TemperatureXDomain(cityTempData: seq<Row>): Domain
  {
    Extent(Dates(cityTempData))
  }

  /** The temperature chart's value domain: the extent of the rows' mean temperatures. */
  function TemperatureYDomain(cityTempData: seq<Row>): Domain
  {
    Extent(MeanTemps(cityTempData))
  }

  class Dashboard {
    // the globals filled by the load step
    var globalData: seq<Row>
    var monthlyData: seq<MonthlyAggregate>
    var cities: seq<string>
    // rainfall chart: band and linear scale domains, and the records bound to bars
    var xDomain: seq<string>
    var yDomain: Domain
    var bars: seq<MonthlyAggregate>
    // temperature chart: time and linear scale domains, and the rows drawn as line and dots
    var xDomain2: Domain
    var yDomain2: Domain
    var points: seq<Row>

    constructor ()
      ensures globalData == [] && monthlyData == [] && cities == []
      ensures bars == [] && points == []
    {
      globalData, monthlyData, cities := [], [], [];
      bars, points := [], [];
    }

    /**
     * The load callback: annotate the rows in place, keep them as the global
     * table, list the cities, and append the cities' monthly blocks to
     * `monthlyData`.
     */
    method Load(data: array<Row>)
      modifies data, this`globalData, this`cities, this`monthlyData
      ensures data[..] == WithMonthKeys(old(data[..]))
      ensures globalData == data[..] && Keyed(globalData)
      ensures cities == Cities(globalData)
      ensures monthlyData == old(monthlyData) + MonthlyData(globalData, cities)
    {
      AnnotateRows(data);
      var rows := data[..];
      var cs := Cities(rows);
      globalData, cities := rows, cs;
      var blocks := AggregateAll(rows, cs);
      monthlyData := monthlyData + blocks;
    }

    /** Redraws the rainfall chart for a city: its records, and domains computed from them alone. */
    method UpdateChart(selectedCity: string)
      modifies this`xDomain, this`yDomain, this`bars
      ensures bars == CityAggregates(monthlyData, selectedCity)
      ensures xDomain == RainfallXDomain(bars) && yDomain == RainfallYDomain(bars)
    {
      var cityData := CityAggregates(monthlyData, selectedCity);
      xDomain := RainfallXDomain(cityData);
      yDomain := RainfallYDomain(cityData);
      bars := cityData;
    }

    /** Redraws the temperature chart for a city: its rows, and domains computed from them alone. */
    method UpdateTemperatureChart(selectedCity: string)
      modifies this`xDomain2, this`yDomain2, this`points
      ensures points == CityRows(globalData, selectedCity)
      ensures xDomain2 == TemperatureXDomain(points) && yDomain2 == TemperatureYDomain(points)
    {
      var cityTempData := CityRows(globalData, selectedCity);
      xDomain2 := TemperatureXDomain(cityTempData);
      yDomain2 := TemperatureYDomain(cityTempData);
      points := cityTempData;
    }

    /** Removes the bars; the scale domains keep their last values. */
    method ClearChart()
      modifies this`bars
      ensures bars == []
    {
      bars := [];
    }

    /** Removes the line and dots; the scale domains keep their last values. */
    method ClearTemperatureChart()
      modifies this`points
      ensures points == []
    {
      points := [];
    }

    /**
     * The city picker's change handler: a non-empty value redraws both charts
     * for that city, the empty value clears both.
     */
    method OnCityChange(value: string)
      modifies this`xDomain, this`yDomain, this`bars, this`xDomain2, this`yDomain2, this`points
      ensures value != "" ==>
        && bars == CityAggregates(monthlyData, value)
        && xDomain == RainfallXDomain(bars) && yDomain == RainfallYDomain(bars)
        && points == CityRows(globalData, value)
        && xDomain2 == TemperatureXDomain(points) && yDomain2 == TemperatureYDomain(points)
      ensures value == "" ==>
        && bars == [] && points == []
        && xDomain == old(xDomain) && yDomain == old(yDomain)
        && xDomain2 == old(xDomain2) && yDomain2 == old(yDomain2)
    {
      if value != "" {
        UpdateChart(value);
        UpdateTemperatureChart(value);
      } else {
        ClearChart();
        ClearTemperatureChart();
      }
    }
  }

  /**
   * After loading, selecting a city shows exactly that city's monthly block
   * when the city has rows, and nothing otherwise.
   */
  lemma SelectionAfterLoad(data: seq<Row>, city: string)
    requires Keyed(data)
    ensures CityAggregates(MonthlyData(data, Cities(data)), city)
      == if exists r :: r in data && r.city == city then CityMonthly(data, city) else []
  {
    CitiesOfRows(data);
    SelectedCityBlock(data, Cities(data), city);
  }

  /** For records whose key names their month, the band domain is the list of keys. */
  lemma RainfallXDomainIsKeys(s: seq<MonthlyAggregate>)
    requires forall a :: a in s ==> a.monthYear == MonthKey(a.date.year, a.date.month)
    ensures RainfallXDomain(s) == KeysOf(s)
  {
    forall i | 0 <= i < |s| ensures RainfallXDomain(s)[i] == KeysOf(s)[i]
    {
      assert s[i] in s;
    }
  }

  /**
   * For a city with rows, the rainfall chart's band domain is the city's month
   * keys in record order, and its value domain runs from 0 to the largest of
   * the city's monthly totals.
   */
  lemma RainfallDomainsOfCity(data: seq<Row>, city: string)
    requires Keyed(data)
    requires exists r :: r in data && r.city == city
    ensures RainfallXDomain(CityMonthly(data, city)) == KeysOf(CityMonthly(data, city))
    ensures RainfallYDomain(CityMonthly(data, city)).lo == Some(0)
    ensures RainfallYDomain(CityMonthly(data, city)).hi.Some?
    ensures exists a :: a in CityMonthly(data, city) && a.monthlyRainfall == RainfallYDomain(CityMonthly(data, city)).hi.value
    ensures forall a :: a in CityMonthly(data, city) ==>
      a.monthlyRainfall <= RainfallYDomain(CityMonthly(data, city)).hi.value
  {
    var s := CityMonthly(data, city);
    CityMonthlyNonEmpty(data, city);
    CityMonthlyRecords(data, city);
    RainfallXDomainIsKeys(s);
    RainfallYDomainBounds(s);
  }

  /** For a non-empty run, the value domain's top is the largest monthly total of the run. */
  lemma RainfallYDomainBounds(s: seq<MonthlyAggregate>)
    requires s != []
    ensures RainfallYDomain(s).lo == Some(0) && RainfallYDomain(s).hi.Some?
    ensures exists a :: a in s && a.monthlyRainfall == RainfallYDomain(s).hi.value
    ensures forall a :: a in s ==> a.monthlyRainfall <= RainfallYDomain(s).hi.value
  {
    var m := Maximum(Rainfalls(s));
    assert Rainfalls(s)[0] in Rainfalls(s);
    var i :| 0 <= i < |s| && Rainfalls(s)[i] == m.value;
    assert s[i] in s;
    forall a | a in s ensures a.monthlyRainfall <= m.value
    {
      var j :| 0 <= j < |s| && s[j] == a;
      assert Rainfalls(s)[j] in Rainfalls(s);
    }
  }

  /**
   * For a non-empty run of rows (a city's rows, by `CityRowsMembers`), the
   * temperature chart's time domain runs from the earliest to the latest row
   * date and its value domain from the lowest to the highest mean
   * temperature; every end is the value of one of the rows.
   */
  lemma TemperatureDomains(rows: seq<Row>)
    requires rows != []
    ensures TemperatureXDomain(rows).lo.Some? && TemperatureXDomain(rows).hi.Some?
    ensures TemperatureYDomain(rows).lo.Some? && TemperatureYDomain(rows).hi.Some?
    ensures forall r :: r in rows ==> TemperatureXDomain(rows).lo.value <= r.date <= TemperatureXDomain(rows).hi.value
    ensures forall r :: r in rows ==> TemperatureYDomain(rows).lo.value <= r.meanTemp <= TemperatureYDomain(rows).hi.value
    ensures exists r :: r in rows && r.date == TemperatureXDomain(rows).lo.value
    ensures exists r :: r in rows && r.date == TemperatureXDomain(rows).hi.value
    ensures exists r :: r in rows && r.meanTemp == TemperatureYDomain(rows).lo.value
    ensures exists r :: r in rows && r.meanTemp == TemperatureYDomain(rows).hi.value
  {
    assert Dates(rows)[0] in Dates(rows);
    assert MeanTemps(rows)[0] in MeanTemps(rows);
    forall r | r in rows
      ensures r.date in Dates(rows) && r.meanTemp in MeanTemps(rows)
    {
      var k :| 0 <= k < |rows| && rows[k] == r;
      assert Dates(rows)[k] == r.date && MeanTemps(rows)[k] == r.meanTemp;
    }
    var x, y := TemperatureXDomain(rows), TemperatureYDomain(rows);
    var a :| 0 <= a < |rows| && Dates(rows)[a] == x.lo.value;
    var b :| 0 <= b < |rows| && Dates(rows)[b] == x.hi.value;
    var c :| 0 <= c < |rows| && MeanTemps(rows)[c] == y.lo.value;
    var d :| 0 <= d < |rows| && MeanTemps(rows)[d] == y.hi.value;
    assert rows[a] in rows && rows[b] in rows && rows[c] in rows && rows[d] in rows;
  }
}
