/**
 * The itinerary page: the list of trip stops, the stop selected for the detail
 * panel, the panel's statistics, and the form that adds a stop.
 *
 * Stops are sorted by their "YYYY-MM-DD" date strings (module DateOrder).
 * Coordinates are reals: the page only compares them. String operations whose
 * exact semantics belong to the JavaScript runtime (lower-casing with the
 * whitespace-to-dash replacement, the comma split, `parseFloat`) are supplied
 * as a `TextOps` value, and the random id suffix is a parameter.
 */
module Itinerary {
  import opened Wrappers
  import opened DateOrder

  /** A labelled link of a stop (`{ label, url }`); `text` holds the label, since `label` is a Dafny keyword. */
  datatype Link = Link(text: string, url: string)

  datatype TripStop = TripStop(
    id: string,
    title: string,
    date: string,
    lat: real,
    lng: real,
    story: Option<string>,
    photos: seq<string>,
    videos: seq<string>,
    links: seq<Link>)

  /** The seed itinerary the page starts with. */
  function InitialStops(): (r: seq<TripStop>)
  {
    [ TripStop("rome", "Rome", "2025-09-10", 41.9028, 12.4964,
               Some("Touchdown in Italy. Espresso-fueled wander through Trastevere and a nighttime Colosseum peek."), [], [], []),
      TripStop("naples", "Naples", "2025-09-13", 40.8518, 14.2681,
               Some("Pizza pilgrimage. Day trip options: Pompeii or Capri if the weather plays nice."), [], [], []),
      TripStop("florence", "Florence", "2025-09-16", 43.7696, 11.2558,
               Some("Renaissance overload. Ponte Vecchio at golden hour; gelato policy: daily."), [], [], []),
      TripStop("bern", "Bern", "2025-09-19", 46.948, 7.4474,
               Some("River float in the Aare (if not freezing) and old-town strolls."), [], [], []),
      TripStop("lyon", "Lyon", "2025-09-22", 45.764, 4.8357,
               Some("France’s food capital. Bouchon crawl and riverside night shots."), [], [], []) ]
  }

  /** The dates and coordinates of the seed stops. */
  lemma InitialStopFacts()
    ensures |InitialStops()| == 5
    ensures InitialStops()[0].date == "2025-09-10" && InitialStops()[0].lat == 41.9028 && InitialStops()[0].lng == 12.4964
    ensures InitialStops()[1].date == "2025-09-13" && InitialStops()[1].lat == 40.8518 && InitialStops()[1].lng == 14.2681
    ensures InitialStops()[2].date == "2025-09-16" && InitialStops()[2].lat == 43.7696 && InitialStops()[2].lng == 11.2558
    ensures InitialStops()[3].date == "2025-09-19" && InitialStops()[3].lat == 46.948 && InitialStops()[3].lng == 7.4474
    ensures InitialStops()[4].date == "2025-09-22" && InitialStops()[4].lat == 45.764 && InitialStops()[4].lng == 4.8357
  {
  }

  // ---------------------------------------------------------------------------
  // Country labels
  // ---------------------------------------------------------------------------

  predicate InFranceBox(lat: real, lng: real) { 41.0 < lat < 52.0 && -6.0 < lng < 10.0 }
  predicate InSwissBox(lat: real, lng: real) { 45.0 < lat < 48.0 && 6.0 < lng < 10.0 }
  predicate InItalyBox(lat: real, lng: real) { 36.0 < lat < 48.0 && 6.0 < lng < 19.0 }

  predicate IsCountryLabel(s: string)
  {
    s == "France" || s == "Switzerland" || s == "Italy" || s == "EU"
  }

  /** The page's `Country` as written: the France box is tested first. */
  function CountryAsWritten(lat: real, lng: real): (r: string)
    ensures IsCountryLabel(r)
    ensures r == "France" <==> InFranceBox(lat, lng)
    ensures r == "Switzerland" <==> !InFranceBox(lat, lng) && InSwissBox(lat, lng)
    ensures r == "Italy" <==> !InFranceBox(lat, lng) && !InSwissBox(lat, lng) && InItalyBox(lat, lng)
    ensures r == "EU" <==> !InFranceBox(lat, lng) && !InSwissBox(lat, lng) && !InItalyBox(lat, lng)
  {
    if InFranceBox(lat, lng) then "France"
    else if InSwissBox(lat, lng) then "Switzerland"
    else if InItalyBox(lat, lng) then "Italy"
    else "EU"
  }

  /** The Switzerland box lies inside the France box, so as written no point is labelled Switzerland. */
  lemma SwitzerlandUnreachableAsWritten(lat: real, lng: real)
    ensures InSwissBox(lat, lng) ==> InFranceBox(lat, lng) && InItalyBox(lat, lng)
    ensures CountryAsWritten(lat, lng) != "Switzerland"
  {
  }

  /** Bern, a Swiss stop of the seed itinerary, is labelled France as written. */
  lemma BernIsFranceAsWritten()
    ensures InSwissBox(46.948, 7.4474)
    ensures CountryAsWritten(46.948, 7.4474) == "France"
  {
  }

  /**
   * The labelling the boxes evidently intend: the Switzerland box, which lies
   * inside both other boxes, is tested first; France and Italy keep their order.
   */
  function CountryIntended(lat: real, lng: real): (r: string)
    ensures IsCountryLabel(r)
    ensures r == "Switzerland" <==> InSwissBox(lat, lng)
    ensures r == "France" <==> !InSwissBox(lat, lng) && InFranceBox(lat, lng)
    ensures r == "Italy" <==> !InSwissBox(lat, lng) && !InFranceBox(lat, lng) && InItalyBox(lat, lng)
    ensures r == "EU" <==> !InSwissBox(lat, lng) && !InFranceBox(lat, lng) && !InItalyBox(lat, lng)
    ensures !InSwissBox(lat, lng) ==> r == CountryAsWritten(lat, lng)
  {
    if InSwissBox(lat, lng) then "Switzerland"
    else if InFranceBox(lat, lng) then "France"
    else if InItalyBox(lat, lng) then "Italy"
    else "EU"
  }

  /** Under the intended labelling every one of the four labels is given to some point. */
  lemma EveryLabelReachable()
    ensures CountryIntended(46.948, 7.4474) == "Switzerland"
    ensures CountryIntended(45.764, 4.8357) == "France"
    ensures CountryIntended(41.9028, 12.4964) == "Italy"
    ensures CountryIntended(60.0, 20.0) == "EU"
  {
  }

  // ---------------------------------------------------------------------------
  // Statistics
  // ---------------------------------------------------------------------------

  /** `new Set(stops.map(s => labelOf(s.coords)))` restricted to the first `n` stops. */
  function LabelsOfFirst(stops: seq<TripStop>, n: nat, labelOf: (real, real) -> string): (r: set<string>)
    requires n <= |stops|
  {
    set i | 0 <= i < n :: labelOf(stops[i].lat, stops[i].lng)
  }

  /** The labels of all stops, as the page computes them with `Country`. */
  function CountrySet(stops: seq<TripStop>): (r: set<string>)
  {
    LabelsOfFirst(stops, |stops|, CountryAsWritten)
  }

  /** The "Countries" figure of the detail panel. */
  function CountryCount(stops: seq<TripStop>): (r: nat)
  {
    |CountrySet(stops)|
  }

  /** The "Countries" figure under the intended labelling. */
  function CountryCountIntended(stops: seq<TripStop>): (r: nat)
  {
    |LabelsOfFirst(stops, |stops|, CountryIntended)|
  }

  /** The "Stops" figure of the detail panel. */
  function StopCount(stops: seq<TripStop>): (r: nat)
  {
    |stops|
  }

  /** The first `n` stops carry at most `n` distinct labels, each drawn from `allowed`. */
  lemma {:induction false} LabelsOfFirstBounded(stops: seq<TripStop>, n: nat, labelOf: (real, real) -> string, allowed: set<string>)
    requires n <= |stops|
    requires forall i :: 0 <= i < |stops| ==> labelOf(stops[i].lat, stops[i].lng) in allowed
    ensures |LabelsOfFirst(stops, n, labelOf)| <= n
    ensures LabelsOfFirst(stops, n, labelOf) <= allowed
  {
    if n > 0 {
      LabelsOfFirstBounded(stops, n - 1, labelOf, allowed);
      LabelsOfFirstStep(stops, n, labelOf);
    } else {
      assert LabelsOfFirst(stops, n, labelOf) == {};
    }
  }

  lemma LabelsOfFirstStep(stops: seq<TripStop>, n: nat, labelOf: (real, real) -> string)
    requires 0 < n <= |stops|
    ensures LabelsOfFirst(stops, n, labelOf)
            == LabelsOfFirst(stops, n - 1, labelOf) + {labelOf(stops[n - 1].lat, stops[n - 1].lng)}
  {
  }

  /**
   * For a non-empty itinerary the panel's country count lies between 1 and the
   * stop count, and never exceeds 3: no stop is counted as Switzerland.
   */
  lemma CountryCountBounds(stops: seq<TripStop>)
    requires |stops| > 0
    ensures 1 <= CountryCount(stops) <= 3
    ensures CountryCount(stops) <= StopCount(stops)
    ensures "Switzerland" !in CountrySet(stops)
  {
    var labels := {"France", "Italy", "EU"};
    forall i | 0 <= i < |stops|
      ensures CountryAsWritten(stops[i].lat, stops[i].lng) in labels
    {
      SwitzerlandUnreachableAsWritten(stops[i].lat, stops[i].lng);
    }
    LabelsOfFirstBounded(stops, |stops|, CountryAsWritten, labels);
    assert |labels| == 3;
    SubsetCardinality(CountrySet(stops), labels);
    assert CountryAsWritten(stops[0].lat, stops[0].lng) in CountrySet(stops);
  }

  /** Under the intended labelling the count lies between 1 and min(4, number of stops). */
  lemma CountryCountIntendedBounds(stops: seq<TripStop>)
    requires |stops| > 0
    ensures 1 <= CountryCountIntended(stops) <= 4
    ensures CountryCountIntended(stops) <= StopCount(stops)
  {
    var labels := {"France", "Switzerland", "Italy", "EU"};
    LabelsOfFirstBounded(stops, |stops|, CountryIntended, labels);
    assert |labels| == 4;
    SubsetCardinality(LabelsOfFirst(stops, |stops|, CountryIntended), labels);
    assert CountryIntended(stops[0].lat, stops[0].lng) in LabelsOfFirst(stops, |stops|, CountryIntended);
  }

  lemma SubsetCardinality(a: set<string>, b: set<string>)
    requires a <= b
    ensures |a| <= |b|
  {
    assert b == a + (b - a);
  }

  /** The label of each seed stop, as intended and as written. */
  lemma SeedCountries(i: nat)
    requires i < 5
    ensures |InitialStops()| == 5
    ensures CountryIntended(InitialStops()[i].lat, InitialStops()[i].lng) == ["Italy", "Italy", "Italy", "Switzerland", "France"][i]
    ensures CountryAsWritten(InitialStops()[i].lat, InitialStops()[i].lng) == ["Italy", "Italy", "Italy", "France", "France"][i]
  {
    InitialStopFacts();
  }

  /** The distinct labels of a list, given the label of each of its stops. */
  lemma LabelSetOf(s: seq<TripStop>, labelOf: (real, real) -> string, names: seq<string>)
    requires |names| == |s|
    requires forall i :: 0 <= i < |s| ==> labelOf(s[i].lat, s[i].lng) == names[i]
    ensures (set i | 0 <= i < |s| :: labelOf(s[i].lat, s[i].lng)) == set i | 0 <= i < |names| :: names[i]
  {
  }

  /** The seed itinerary spans three countries; as written the panel shows two, since Bern counts as France. */
  lemma InitialCountries()
    ensures CountryCount(InitialStops()) == 2
    ensures CountryCountIntended(InitialStops()) == 3
  {
    var intended := ["Italy", "Italy", "Italy", "Switzerland", "France"];
    var written := ["Italy", "Italy", "Italy", "France", "France"];
    SeedLabels(InitialStops(), intended, written);
    assert (set i | 0 <= i < |intended| :: intended[i]) == {"Italy", "Switzerland", "France"} by {
      assert intended[0] == "Italy" && intended[3] == "Switzerland" && intended[4] == "France";
    }
    assert (set i | 0 <= i < |written| :: written[i]) == {"Italy", "France"} by {
      assert written[0] == "Italy" && written[4] == "France";
    }
  }

  lemma SeedLabels(s: seq<TripStop>, intended: seq<string>, written: seq<string>)
    requires s == InitialStops()
    requires intended == ["Italy", "Italy", "Italy", "Switzerland", "France"]
    requires written == ["Italy", "Italy", "Italy", "France", "France"]
    ensures LabelsOfFirst(s, |s|, CountryIntended) == set i | 0 <= i < |intended| :: intended[i]
    ensures CountrySet(s) == set i | 0 <= i < |written| :: written[i]
  {
    forall i | 0 <= i < |s|
      ensures CountryIntended(s[i].lat, s[i].lng) == intended[i]
      ensures CountryAsWritten(s[i].lat, s[i].lng) == written[i]
    {
      SeedCountries(i);
    }
    LabelSetOf(s, CountryIntended, intended);
    LabelSetOf(s, CountryAsWritten, written);
  }

  // ---------------------------------------------------------------------------
  // The active stop
  // ---------------------------------------------------------------------------

  /** The position of the stop `stops.find(s => s.id === id)` returns: the first one holding `id`. */
  function FindById(stops: seq<TripStop>, id: string): (r: Option<nat>)
    ensures r.Some? ==> r.value < |stops| && stops[r.value].id == id
    ensures r.Some? ==> forall j :: 0 <= j < r.value ==> stops[j].id != id
    ensures r.None? <==> forall j :: 0 <= j < |stops| ==> stops[j].id != id
  {
    if stops == [] then None
    else if stops[0].id == id then Some(0)
    else
      match FindById(stops[1..], id)
      case None => None
      case Some(k) => Some(k + 1)
  }

  /**
   * `stops.find(s => s.id === activeId) ?? stops[0]`: the first stop with the
   * active id, else the first stop, else nothing (no id is null).
   */
  function ActiveStop(stops: seq<TripStop>, activeId: Option<string>): (r: Option<TripStop>)
    ensures r.None? <==> |stops| == 0
    ensures forall k :: (0 <= k < |stops| && Some(stops[k].id) == activeId
                         && forall j :: 0 <= j < k ==> Some(stops[j].id) != activeId) ==> r == Some(stops[k])
    ensures |stops| > 0 && (forall k :: 0 <= k < |stops| ==> Some(stops[k].id) != activeId) ==> r == Some(stops[0])
  {
    var found := if activeId.Some? then FindById(stops, activeId.value) else None;
    if found.Some? then Some(stops[found.value])
    else if |stops| > 0 then Some(stops[0])
    else None
  }

  // ---------------------------------------------------------------------------
  // Sorting by date
  // ---------------------------------------------------------------------------

  /** Dates never decrease along the list. */
  predicate SortedByDate(s: seq<TripStop>)
  {
    forall i, j :: 0 <= i < j < |s| ==> LexLe(s[i].date, s[j].date)
  }

  /** Place `x` after every stop dated on or before it and before the first later one. */
  function InsertByDate(x: TripStop, s: seq<TripStop>): (r: seq<TripStop>)
  {
    if s == [] || LexLt(x.date, s[0].date) then [x] + s
    else [s[0]] + InsertByDate(x, s[1..])
  }

  /**
   * `[...s].sort((a, b) => a.date.localeCompare(b.date))`: a stable sort, so
   * stops with equal dates keep their order.
   */
  function SortByDate(s: seq<TripStop>): (r: seq<TripStop>)
  {
    if s == [] then [] else InsertByDate(s[|s| - 1], SortByDate(s[..|s| - 1]))
  }

  lemma {:induction false} InsertByDatePermutes(x: TripStop, s: seq<TripStop>)
    ensures multiset(InsertByDate(x, s)) == multiset(s) + multiset{x}
  {
    if s != [] && !LexLt(x.date, s[0].date) {
      InsertByDatePermutes(x, s[1..]);
      assert s == [s[0]] + s[1..];
    }
  }

  lemma {:induction false} InsertByDateSorted(x: TripStop, s: seq<TripStop>)
    requires SortedByDate(s)
    ensures SortedByDate(InsertByDate(x, s))
  {
    var r := InsertByDate(x, s);
    if s == [] {
    } else if LexLt(x.date, s[0].date) {
      LexLtIsLe(x.date, s[0].date);
      forall k | 0 <= k < |s| ensures LexLe(x.date, s[k].date) {
        if k > 0 { LexLeTransitive(x.date, s[0].date, s[k].date); }
      }
      assert forall k :: 1 <= k < |r| ==> r[k] == s[k - 1];
    } else {
      var rest := InsertByDate(x, s[1..]);
      InsertByDateSorted(x, s[1..]);
      InsertByDatePermutes(x, s[1..]);
      assert s == [s[0]] + s[1..];
      forall k | 0 <= k < |rest| ensures LexLe(s[0].date, rest[k].date) {
        assert rest[k] in multiset(s[1..]) + multiset{x};
        if rest[k] != x {
          var m :| 0 <= m < |s[1..]| && s[1..][m] == rest[k];
          assert s[m + 1] == rest[k];
        }
      }
      assert r == [s[0]] + rest;
    }
  }

  /** The re-sorted list is ordered by date. */
  lemma {:induction false} SortByDateSorted(s: seq<TripStop>)
    ensures SortedByDate(SortByDate(s))
  {
    if s != [] {
      SortByDateSorted(s[..|s| - 1]);
      InsertByDateSorted(s[|s| - 1], SortByDate(s[..|s| - 1]));
    }
  }

  /** The re-sorted list holds exactly the stops it was given: none lost, none changed, none added. */
  lemma {:induction false} SortByDatePermutes(s: seq<TripStop>)
    ensures multiset(SortByDate(s)) == multiset(s)
    ensures |SortByDate(s)| == |s|
  {
    if s != [] {
      SortByDatePermutes(s[..|s| - 1]);
      InsertByDatePermutes(s[|s| - 1], SortByDate(s[..|s| - 1]));
      assert s == s[..|s| - 1] + [s[|s| - 1]];
    }
    assert |SortByDate(s)| == |multiset(SortByDate(s))|;
  }

  lemma {:induction false} InsertAfterAll(x: TripStop, s: seq<TripStop>)
    requires forall k :: 0 <= k < |s| ==> LexLe(s[k].date, x.date)
    ensures InsertByDate(x, s) == s + [x]
  {
    if s != [] {
      InsertAfterAll(x, s[1..]);
      assert s == [s[0]] + s[1..];
    }
  }

  /** Sorting an already sorted list changes nothing; stability is shown for sorted input only. */
  lemma {:induction false} SortByDateOfSorted(s: seq<TripStop>)
    requires SortedByDate(s)
    ensures SortByDate(s) == s
  {
    if s != [] {
      var init := s[..|s| - 1];
      SortByDateOfSorted(init);
      InsertAfterAll(s[|s| - 1], init);
      assert init + [s[|s| - 1]] == s;
    }
  }

  /** How many leading stops of `s` the new stop `x` goes after. */
  function InsertionPoint(x: TripStop, s: seq<TripStop>): (k: nat)
    ensures k <= |s|
  {
    if s == [] || LexLt(x.date, s[0].date) then 0 else 1 + InsertionPoint(x, s[1..])
  }

  /**
   * Inserting into a sorted list splits it at one point: every stop before the
   * new one is dated on or before it, every stop after it strictly later, and
   * the old stops keep their order.
   */
  lemma {:induction false} InsertByDateSplits(x: TripStop, s: seq<TripStop>)
    requires SortedByDate(s)
    ensures InsertByDate(x, s) == s[..InsertionPoint(x, s)] + [x] + s[InsertionPoint(x, s)..]
    ensures forall i :: 0 <= i < InsertionPoint(x, s) ==> LexLe(s[i].date, x.date)
    ensures forall i :: InsertionPoint(x, s) <= i < |s| ==> LexLt(x.date, s[i].date)
  {
    if s == [] {
    } else if LexLt(x.date, s[0].date) {
      forall i | 0 <= i < |s| ensures LexLt(x.date, s[i].date) {
        if i > 0 && LexLe(s[i].date, x.date) {
          LexLeTransitive(s[0].date, s[i].date, x.date);
        }
      }
    } else {
      var t := s[1..];
      assert SortedByDate(t) by {
        forall i, j | 0 <= i < j < |t| ensures LexLe(t[i].date, t[j].date) {
          assert t[i] == s[i + 1] && t[j] == s[j + 1];
        }
      }
      InsertByDateSplits(x, t);
      var k := InsertionPoint(x, t);
      assert InsertionPoint(x, s) == k + 1;
      assert s[..k + 1] == [s[0]] + t[..k];
      assert s[k + 1..] == t[k..];
      forall i | 1 <= i < |s| ensures s[i] == t[i - 1] {
      }
    }
  }

  /**
   * Appending a stop to a sorted itinerary and re-sorting the whole list puts
   * the new stop after every stop dated on or before it, and leaves the old
   * stops in their order.
   */
  lemma AppendThenSort(s: seq<TripStop>, x: TripStop)
    requires SortedByDate(s)
    ensures SortByDate(s + [x]) == InsertByDate(x, s)
    ensures SortByDate(s + [x]) == s[..InsertionPoint(x, s)] + [x] + s[InsertionPoint(x, s)..]
  {
    var t := s + [x];
    assert t[..|t| - 1] == s;
    SortByDateOfSorted(s);
    InsertByDateSplits(x, s);
  }

  /** After the append and re-sort the list is ordered, one longer, and still holds every stop, the new one included. */
  lemma AppendedStopIsFound(s: seq<TripStop>, x: TripStop)
    ensures SortedByDate(SortByDate(s + [x]))
    ensures |SortByDate(s + [x])| == |s| + 1
    ensures multiset(SortByDate(s + [x])) == multiset(s) + multiset{x}
    ensures FindById(SortByDate(s + [x]), x.id).Some?
  {
    var next := SortByDate(s + [x]);
    SortByDateSorted(s + [x]);
    SortByDatePermutes(s + [x]);
    assert x in multiset(next);
    var k :| 0 <= k < |next| && next[k] == x;
  }

  /** The seed itinerary is already in date order. */
  lemma InitialStopsSorted()
    ensures SortedByDate(InitialStops())
  {
    var s := InitialStops();
    forall i | 0 <= i < |s| - 1 ensures LexLe(s[i].date, s[i + 1].date) {
      SeedDatesAscend(i);
    }
    AdjacentSorted(s);
  }

  lemma SeedDatesAscend(i: nat)
    requires i < 4
    ensures |InitialStops()| == 5
    ensures LexLe(InitialStops()[i].date, InitialStops()[i + 1].date)
  {
    InitialStopFacts();
    DatesAscend(["2025-09-10", "2025-09-13", "2025-09-16", "2025-09-19", "2025-09-22"], i);
  }

  lemma DatesAscend(dates: seq<string>, i: nat)
    requires dates == ["2025-09-10", "2025-09-13", "2025-09-16", "2025-09-19", "2025-09-22"]
    requires i < 4
    ensures LexLe(dates[i], dates[i + 1])
  {
    if i == 0 {
      assert LexLe("2025-09-10", "2025-09-13");
    } else if i == 1 {
      assert LexLe("2025-09-13", "2025-09-16");
    } else if i == 2 {
      assert LexLe("2025-09-16", "2025-09-19");
    } else {
      assert LexLe("2025-09-19", "2025-09-22");
    }
  }

  lemma {:induction false} AdjacentSorted(s: seq<TripStop>)
    requires forall i :: 0 <= i < |s| - 1 ==> LexLe(s[i].date, s[i + 1].date)
    ensures SortedByDate(s)
  {
    if |s| > 1 {
      AdjacentSorted(s[1..]);
      forall j | 1 <= j < |s| ensures LexLe(s[0].date, s[j].date) {
        assert s[1..][0] == s[1];
        if j > 1 {
          assert s[1..][j - 1] == s[j];
          LexLeTransitive(s[0].date, s[1].date, s[j].date);
        }
      }
      assert forall i, j :: 1 <= i < j < |s| ==> s[i] == s[1..][i - 1] && s[j] == s[1..][j - 1];
    }
  }

  // ---------------------------------------------------------------------------
  // Building a new stop
  // ---------------------------------------------------------------------------

  /**
   * The JavaScript string operations the form relies on: `slugify` lower-cases
   * a title and turns every run of whitespace into one dash, `splitList` cuts a
   * field at each comma together with the whitespace after it, and `parseFloat`
   * is the number a coordinate field denotes.
   */
  datatype TextOps = TextOps(slugify: string -> string, splitList: string -> seq<string>, parseFloat: string -> real)

  /** `.filter(Boolean)` on strings: the pieces that are not empty, in order. */
  function DropEmpty(xs: seq<string>): (r: seq<string>)
    ensures |r| <= |xs|
    ensures forall k :: 0 <= k < |r| ==> r[k] != ""
    ensures forall u :: u in r <==> u in xs && u != ""
  {
    if xs == [] then []
    else
      assert xs == [xs[0]] + xs[1..];
      (if xs[0] == "" then [] else [xs[0]]) + DropEmpty(xs[1..])
  }

  /** Every non-empty piece is kept as often as it occurs; every empty one is dropped. */
  lemma {:induction false} DropEmptyCounts(xs: seq<string>)
    ensures multiset(DropEmpty(xs)) == multiset(xs)["" := 0]
  {
    if xs != [] {
      assert xs == [xs[0]] + xs[1..];
      assert multiset(xs) == multiset{xs[0]} + multiset(xs[1..]);
      DropEmptyCounts(xs[1..]);
    }
  }

  /** The filter works piece by piece: it keeps the order of what it keeps. */
  lemma {:induction false} DropEmptyAppend(a: seq<string>, b: seq<string>)
    ensures DropEmpty(a + b) == DropEmpty(a) + DropEmpty(b)
  {
    if a != [] {
      assert (a + b)[1..] == a[1..] + b;
      DropEmptyAppend(a[1..], b);
    } else {
      assert a + b == b;
    }
  }

  function DigitChar(d: nat): (c: char)
    requires d < 10
  {
    ['0', '1', '2', '3', '4', '5', '6', '7', '8', '9'][d]
  }

  /** The decimal numeral of `n`, as `+` writes a number into a string. */
  function Decimal(n: nat): (r: string)
    ensures |r| >= 1
    ensures forall k :: 0 <= k < |r| ==> '0' <= r[k] <= '9'
    ensures |r| > 1 ==> r[0] != '0'
  {
    if n < 10 then [DigitChar(n)] else Decimal(n / 10) + [DigitChar(n % 10)]
  }

  /** The number a string of decimal digits denotes. */
  function DigitsValue(s: string): (r: nat)
    requires forall k :: 0 <= k < |s| ==> '0' <= s[k] <= '9'
  {
    if s == [] then 0 else DigitsValue(s[..|s| - 1]) * 10 + (s[|s| - 1] as int - '0' as int)
  }

  /** The numeral reads back as the number: distinct suffixes give distinct numerals. */
  lemma {:induction false} DecimalRoundTrip(n: nat)
    ensures DigitsValue(Decimal(n)) == n
  {
    if n >= 10 {
      DecimalRoundTrip(n / 10);
      var s := Decimal(n);
      assert s[..|s| - 1] == Decimal(n / 10);
    }
  }

  /** The id of a new stop: the slug of its title, a dash, and the random suffix. */
  function StopId(title: string, suffix: nat, ops: TextOps): (r: string)
  {
    ops.slugify(title) + "-" + Decimal(suffix)
  }

  /** Two stops with the same title get the same id only when their suffixes agree. */
  lemma StopIdDeterminesSuffix(title: string, a: nat, b: nat, ops: TextOps)
    requires StopId(title, a, ops) == StopId(title, b, ops)
    ensures a == b
  {
    var p := ops.slugify(title) + "-";
    assert StopId(title, a, ops) == p + Decimal(a);
    assert StopId(title, b, ops) == p + Decimal(b);
    assert Decimal(a) == (p + Decimal(a))[|p|..];
    assert Decimal(b) == (p + Decimal(b))[|p|..];
    DecimalRoundTrip(a);
    DecimalRoundTrip(b);
  }

  /** The stop `addStop` builds from the form fields. */
  function NewStop(title: string, date: string, lat: string, lng: string, story: string,
                   photos: string, videos: string, suffix: nat, ops: TextOps): (r: TripStop)
    ensures r.id == StopId(title, suffix, ops)
    ensures r.title == title && r.date == date && r.story == Some(story) && r.links == []
    ensures r.lat == ops.parseFloat(lat) && r.lng == ops.parseFloat(lng)
    ensures forall k :: 0 <= k < |r.photos| ==> r.photos[k] != ""
    ensures forall k :: 0 <= k < |r.videos| ==> r.videos[k] != ""
    ensures forall u :: u in r.photos <==> u in ops.splitList(photos) && u != ""
    ensures forall u :: u in r.videos <==> u in ops.splitList(videos) && u != ""
    ensures r.photos == DropEmpty(ops.splitList(photos)) && r.videos == DropEmpty(ops.splitList(videos))
  {
    TripStop(StopId(title, suffix, ops), title, date, ops.parseFloat(lat), ops.parseFloat(lng),
             Some(story), DropEmpty(ops.splitList(photos)), DropEmpty(ops.splitList(videos)), [])
  }

  /** `title && date && lat && lng`: the four required fields are filled in. */
  predicate FormComplete(title: string, date: string, lat: string, lng: string)
  {
    title != "" && date != "" && lat != "" && lng != ""
  }

  /** The form inputs the page renders; the story has no input of its own. */
  datatype FormField = Title | Date | Lat | Lng | Photos | Videos

  // ---------------------------------------------------------------------------
  // The page state
  // ---------------------------------------------------------------------------

  class Page {
    var stops: seq<TripStop>
    var activeId: Option<string>
    var title: string
    var date: string
    var lat: string
    var lng: string
    var story: string
    var photos: string
    var videos: string

    /** The list is in date order and the active id names one of its stops. */
    ghost predicate Valid()
      reads this
    {
      SortedByDate(stops) && activeId.Some? && FindById(stops, activeId.value).Some?
    }

    predicate FormCleared()
      reads this
    {
      title == "" && date == "" && lat == "" && lng == "" && story == "" && photos == "" && videos == ""
    }

    /** The seed itinerary, its first stop active, an empty form. */
    constructor ()
      ensures Valid()
      ensures stops == InitialStops()
      ensures activeId == Some("rome")
      ensures FormCleared()
    {
      stops := InitialStops();
      activeId := Some(InitialStops()[0].id);
      title, date, lat, lng := "", "", "", "";
      story, photos, videos := "", "", "";
      InitialStopsSorted();
    }

    /** The stop the detail panel shows: the one with the active id. */
    function Active(): (r: Option<TripStop>)
      reads this
      requires Valid()
      ensures r.Some? && r.value in stops && Some(r.value.id) == activeId
    {
      ActiveStop(stops, activeId)
    }

    /** Typing into one of the form's inputs. */
    method Edit(field: FormField, value: string)
      requires Valid()
      modifies this
      ensures Valid()
      ensures stops == old(stops) && activeId == old(activeId) && story == old(story)
      ensures title == (if field == Title then value else old(title))
      ensures date == (if field == Date then value else old(date))
      ensures lat == (if field == Lat then value else old(lat))
      ensures lng == (if field == Lng then value else old(lng))
      ensures photos == (if field == Photos then value else old(photos))
      ensures videos == (if field == Videos then value else old(videos))
    {
      match field
      case Title => title := value;
      case Date => date := value;
      case Lat => lat := value;
      case Lng => lng := value;
      case Photos => photos := value;
      case Videos => videos := value;
    }

    /** Clicking the marker of the stop at position `i`. */
    method SelectStop(i: nat)
      requires Valid()
      requires i < |stops|
      modifies this
      ensures Valid()
      ensures activeId == Some(old(stops)[i].id)
      ensures stops == old(stops)
      ensures title == old(title) && date == old(date) && lat == old(lat) && lng == old(lng)
      ensures story == old(story) && photos == old(photos) && videos == old(videos)
    {
      activeId := Some(stops[i].id);
    }

    /**
     * The form's Add button. An incomplete form changes nothing. Otherwise the
     * new stop is appended, the whole list re-sorted by date, the new stop made
     * active and every field cleared. `suffix` is `Math.floor(Math.random() * 9999)`.
     */
    method AddStop(suffix: nat, ops: TextOps)
      requires Valid()
      requires suffix <= 9998
      modifies this
      ensures Valid()
      ensures !FormComplete(old(title), old(date), old(lat), old(lng)) ==>
                && stops == old(stops) && activeId == old(activeId)
                && title == old(title) && date == old(date) && lat == old(lat) && lng == old(lng)
                && story == old(story) && photos == old(photos) && videos == old(videos)
      ensures FormComplete(old(title), old(date), old(lat), old(lng)) ==>
                var added := NewStop(old(title), old(date), old(lat), old(lng), old(story),
                                     old(photos), old(videos), suffix, ops);
                && stops == SortByDate(old(stops) + [added])
                && |stops| == |old(stops)| + 1
                && multiset(stops) == multiset(old(stops)) + multiset{added}
                && activeId == Some(added.id)
                && FormCleared()
    {
      if FormComplete(title, date, lat, lng) {
        var added := NewStop(title, date, lat, lng, story, photos, videos, suffix, ops);
        var id := added.id;
        var next := SortByDate(stops + [added]);
        AppendedStopIsFound(stops, added);
        stops := next;
        activeId := Some(id);
        title, date, lat, lng := "", "", "", "";
        story, photos, videos := "", "", "";
      }
    }
  }
}
