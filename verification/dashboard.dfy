/** The manufacturer grid of the terminal page: the order in which the
    summaries are listed, the filter and sort of `getFilteredManufacturers`
    (dashboard.js:503-520), and the branding lookup of `getBranding`
    (dashboard.js:9-40). */
module Dashboard {
  import opened Wrappers
  import opened Text
  import opened Sorting
  import opened Records
  import opened Ohlc

  // ---- The order of `Object.values(manufacturerSummary)` ----

  /** Manufacturers in the order their summary entries are first created,
      which is the order `Object.values` lists them in. */
  function SummaryOrder(rows: seq<Row>): seq<string>
  {
    FirstSeen(QuarterOrder(rows, Quarters(rows)), ManufacturerColumn)
  }

  lemma SummaryOrderIsManufacturers(rows: seq<Row>)
    ensures forall i, j :: 0 <= i < j < |SummaryOrder(rows)| ==> SummaryOrder(rows)[i] != SummaryOrder(rows)[j]
    ensures forall m :: m in SummaryOrder(rows) <==> m in Manufacturers(rows)
  {
    var qs := Quarters(rows);
    var visited := QuarterOrder(rows, qs);
    QuarterOrderMembers(rows, qs);
    forall m ensures m in SummaryOrder(rows) <==> m in Manufacturers(rows) {
      if m in SummaryOrder(rows) {
        var k :| 0 <= k < |visited| && visited[k].manufacturer == m;
        assert visited[k] in rows;
      }
      if m in Manufacturers(rows) {
        var k :| 0 <= k < |rows| && rows[k].manufacturer == m;
        assert rows[k].quarter in qs;
        assert rows[k] in visited;
      }
    }
  }

  /** The summaries of `order`, in that order. */
  function InOrder(summaries: map<string, Summary>, order: seq<string>): (ss: seq<Summary>)
    requires forall i :: 0 <= i < |order| ==> order[i] in summaries
    ensures |ss| == |order|
    ensures forall i :: 0 <= i < |order| ==> ss[i] == summaries[order[i]]
  {
    seq(|order|, i requires 0 <= i < |order| => summaries[order[i]])
  }

  /** `Object.values(processedData.manufacturerSummary)`. */
  function SummaryList(parse: string -> Option<real>, raws: seq<RawRow>): seq<Summary>
  {
    var rows := Validate(Terminal, parse, raws);
    SummaryOrderIsManufacturers(rows);
    ProcessOhlcKeys(parse, raws);
    InOrder(ProcessOhlc(parse, raws).summaries, SummaryOrder(rows))
  }

  lemma ProcessOhlcKeys(parse: string -> Option<real>, raws: seq<RawRow>)
    ensures forall m :: m in ProcessOhlc(parse, raws).summaries <==>
                          m in Manufacturers(Validate(Terminal, parse, raws))
    ensures forall m :: m in ProcessOhlc(parse, raws).summaries ==>
              ProcessOhlc(parse, raws).summaries[m].name == m
  {
  }

  /** The list holds every summary exactly once. */
  lemma SummaryListIsValues(parse: string -> Option<real>, raws: seq<RawRow>)
    ensures var d := ProcessOhlc(parse, raws);
            var ss := SummaryList(parse, raws);
            && (forall i :: 0 <= i < |ss| ==> ss[i].name in d.summaries && ss[i] == d.summaries[ss[i].name])
            && (forall i, j :: 0 <= i < j < |ss| ==> ss[i].name != ss[j].name)
            && (forall m :: m in d.summaries ==> exists i :: 0 <= i < |ss| && ss[i].name == m)
  {
    var rows := Validate(Terminal, parse, raws);
    SummaryOrderIsManufacturers(rows);
    ProcessOhlcKeys(parse, raws);
    InOrderIsValues(ProcessOhlc(parse, raws).summaries, SummaryOrder(rows));
  }

  /** Listing a name-keyed map along a duplicate-free order of its keys
      gives each value once. */
  lemma InOrderIsValues(summaries: map<string, Summary>, order: seq<string>)
    requires forall i :: 0 <= i < |order| ==> order[i] in summaries
    requires forall i, j :: 0 <= i < j < |order| ==> order[i] != order[j]
    requires forall m :: m in summaries ==> m in order && summaries[m].name == m
    ensures var ss := InOrder(summaries, order);
            && (forall i :: 0 <= i < |ss| ==> ss[i].name in summaries && ss[i] == summaries[ss[i].name])
            && (forall i, j :: 0 <= i < j < |ss| ==> ss[i].name != ss[j].name)
            && (forall m :: m in summaries ==> exists i :: 0 <= i < |ss| && ss[i].name == m)
  {
    var ss := InOrder(summaries, order);
    assert forall i :: 0 <= i < |ss| ==> ss[i].name == order[i];
    forall m | m in summaries ensures exists i :: 0 <= i < |ss| && ss[i].name == m {
      var i :| 0 <= i < |order| && order[i] == m;
      assert ss[i].name == m;
    }
  }

  // ---- `getFilteredManufacturers` ----

  /** The grid's filter and sort controls. */
  datatype ViewState = ViewState(minVolume: real, searchTerm: string, sortBy: string)

  predicate VolumeOk(st: ViewState, s: Summary)
  {
    s.volume as real >= st.minVolume
  }

  /** Case-insensitive substring search on the manufacturer name. */
  predicate NameMatches(st: ViewState, s: Summary)
  {
    Contains(Lower(s.name), Lower(st.searchTerm))
  }

  /** The comparator of dashboard.js:511-519 as a sort key: the numeric
      fields descending, the name ascending, and the mii score for any
      other value of `sortBy`. */
  function SortKey(sortBy: string): Summary -> Key
  {
    match sortBy
    case "volume" => (s: Summary) => Num(-(s.volume as real))
    case "change" => (s: Summary) => Num(-s.change)
    case "name" => (s: Summary) => Str(s.name)
    case _ => (s: Summary) => Num(-s.mii)
  }

  /** The two filters of dashboard.js:509-510. */
  function Matching(all: seq<Summary>, st: ViewState): seq<Summary>
  {
    Filter(Filter(all, (s: Summary) => VolumeOk(st, s)), (s: Summary) => NameMatches(st, s))
  }

  /** `getFilteredManufacturers`; `None` is the state before any data was
      processed. */
  function FilteredManufacturers(summaries: Option<seq<Summary>>, st: ViewState): (r: seq<Summary>)
    ensures summaries.None? ==> r == []
    ensures summaries.Some? ==> |r| <= |summaries.value|
  {
    match summaries
    case None => []
    case Some(all) => SortStable(Matching(all, st), SortKey(st.sortBy))
  }

  /** The grid lists exactly the summaries that pass both filters, each as
      often as it is listed. */
  lemma FilteredManufacturersMembers(all: seq<Summary>, st: ViewState)
    ensures var r := FilteredManufacturers(Some(all), st);
            && (forall i :: 0 <= i < |r| ==> VolumeOk(st, r[i]) && NameMatches(st, r[i]) && r[i] in all)
            && (forall s :: s in all && VolumeOk(st, s) && NameMatches(st, s) ==> s in r)
            && multiset(r) == multiset(Matching(all, st))
  {
    var matching := Matching(all, st);
    var r := FilteredManufacturers(Some(all), st);
    MatchingMembers(all, st);
    assert forall x :: x in r <==> x in matching by {
      assert forall x :: x in r <==> x in multiset(r);
      assert forall x :: x in matching <==> x in multiset(matching);
    }
  }

  /** The two filters keep exactly the summaries that pass both. */
  lemma MatchingMembers(all: seq<Summary>, st: ViewState)
    ensures forall s :: s in Matching(all, st) <==> s in all && VolumeOk(st, s) && NameMatches(st, s)
  {
    var byVolume := Filter(all, (s: Summary) => VolumeOk(st, s));
    var matching := Matching(all, st);
    forall s | s in all && VolumeOk(st, s) && NameMatches(st, s) ensures s in matching {
      var k :| 0 <= k < |all| && all[k] == s;
      assert s in byVolume;
      var j :| 0 <= j < |byVolume| && byVolume[j] == s;
    }
    forall s | s in matching ensures s in all && VolumeOk(st, s) && NameMatches(st, s) {
      var j :| 0 <= j < |matching| && matching[j] == s;
      assert s in byVolume;
      var k :| 0 <= k < |byVolume| && byVolume[k] == s;
    }
  }

  /** The grid is ordered by the chosen control, and summaries the
      comparator ties keep their listed order. */
  lemma FilteredManufacturersOrder(all: seq<Summary>, st: ViewState, k: Key)
    ensures var r := FilteredManufacturers(Some(all), st);
            && SortedBy(r, SortKey(st.sortBy))
            && Tied(r, SortKey(st.sortBy), k) == Tied(Matching(all, st), SortKey(st.sortBy), k)
  {
    var bySearch := Matching(all, st);
    SortStableSorted(bySearch, SortKey(st.sortBy));
    SortStableKeepsTies(bySearch, SortKey(st.sortBy), k);
  }

  /** Sorting by "mii" (or an unknown control) lists higher scores first. */
  lemma FilteredByMii(all: seq<Summary>, st: ViewState)
    requires st.sortBy !in {"volume", "change", "name"}
    ensures var r := FilteredManufacturers(Some(all), st);
            forall i, j :: 0 <= i < j < |r| ==> r[i].mii >= r[j].mii
  {
    var r := FilteredManufacturers(Some(all), st);
    FilteredManufacturersOrder(all, st, Num(0.0));
    assert forall s :: SortKey(st.sortBy)(s) == Num(-s.mii);
    forall i, j | 0 <= i < j < |r| ensures r[i].mii >= r[j].mii {
      assert KeyLe(SortKey(st.sortBy)(r[i]), SortKey(st.sortBy)(r[j]));
    }
  }

  /** Sorting by "volume" lists larger latest-quarter volumes first. */
  lemma FilteredByVolume(all: seq<Summary>, st: ViewState)
    requires st.sortBy == "volume"
    ensures var r := FilteredManufacturers(Some(all), st);
            forall i, j :: 0 <= i < j < |r| ==> r[i].volume >= r[j].volume
  {
    var r := FilteredManufacturers(Some(all), st);
    FilteredManufacturersOrder(all, st, Num(0.0));
    forall i, j | 0 <= i < j < |r| ensures r[i].volume >= r[j].volume {
      assert KeyLe(SortKey(st.sortBy)(r[i]), SortKey(st.sortBy)(r[j]));
    }
  }

  /** Sorting by "change" lists larger changes first. */
  lemma FilteredByChange(all: seq<Summary>, st: ViewState)
    requires st.sortBy == "change"
    ensures var r := FilteredManufacturers(Some(all), st);
            forall i, j :: 0 <= i < j < |r| ==> r[i].change >= r[j].change
  {
    var r := FilteredManufacturers(Some(all), st);
    FilteredManufacturersOrder(all, st, Num(0.0));
    forall i, j | 0 <= i < j < |r| ensures r[i].change >= r[j].change {
      assert KeyLe(SortKey(st.sortBy)(r[i]), SortKey(st.sortBy)(r[j]));
    }
  }

  /** Sorting by "name" lists names in ascending order. */
  lemma FilteredByName(all: seq<Summary>, st: ViewState)
    requires st.sortBy == "name"
    ensures var r := FilteredManufacturers(Some(all), st);
            forall i, j :: 0 <= i < j < |r| ==> StrLe(r[i].name, r[j].name)
  {
    var r := FilteredManufacturers(Some(all), st);
    FilteredManufacturersOrder(all, st, Num(0.0));
    forall i, j | 0 <= i < j < |r| ensures StrLe(r[i].name, r[j].name) {
      assert KeyLe(SortKey(st.sortBy)(r[i]), SortKey(st.sortBy)(r[j]));
    }
  }

  // ---- `getBranding` ----

  datatype Brand = Brand(abbr: string, color: string)

  /** `MANUFACTURER_BRANDING` (dashboard.js:9-33). */
  function BrandingEntry(name: string): Option<Brand>
  {
    match name
    case "Porsche" => Some(Brand("POR", "#d5001c"))
    case "BMW" => Some(Brand("BMW", "#1c69d4"))
    case "Mercedes-Benz" => Some(Brand("MB", "#00adef"))
    case "Ferrari" => Some(Brand("FER", "#dc0000"))
    case "Nissan" => Some(Brand("NIS", "#c3002f"))
    case "Toyota" => Some(Brand("TOY", "#eb0a1e"))
    case "Audi" => Some(Brand("AUD", "#bb0a30"))
    case "Chevrolet" => Some(Brand("CHV", "#ffc72c"))
    case "Ford" => Some(Brand("FOR", "#003478"))
    case "Lamborghini" => Some(Brand("LAM", "#ffd700"))
    case "Jaguar" => Some(Brand("JAG", "#006633"))
    case "Land Rover" => Some(Brand("LRV", "#005a2b"))
    case "Lexus" => Some(Brand("LEX", "#0061aa"))
    case "Honda" => Some(Brand("HON", "#cc0000"))
    case "Acura" => Some(Brand("ACU", "#700000"))
    case "Mazda" => Some(Brand("MAZ", "#c1272d"))
    case "Subaru" => Some(Brand("SUB", "#0052a5"))
    case "Volkswagen" => Some(Brand("VW", "#001e50"))
    case "Mercedes-AMG" => Some(Brand("AMG", "#00adef"))
    case "Dodge" => Some(Brand("DOD", "#cc162c"))
    case "Plymouth" => Some(Brand("PLY", "#ff6600"))
    case "Pontiac" => Some(Brand("PON", "#ee3124"))
    case "Oldsmobile" => Some(Brand("OLD", "#003da5"))
    case _ => None
  }

  /** The colour of a manufacturer without an entry. */
  const FallbackColor := "#888"

  /** `getBranding`: the table entry, or the first three characters of the
      name in upper case on the fallback colour. */
  function Branding(name: string): (b: Brand)
    ensures BrandingEntry(name).Some? ==> b == BrandingEntry(name).value
    ensures BrandingEntry(name).None? ==>
              && b.color == FallbackColor
              && |b.abbr| == (if |name| < 3 then |name| else 3)
              && forall i :: 0 <= i < |b.abbr| ==> b.abbr[i] == UpperChar(name[i])
  {
    match BrandingEntry(name)
    case Some(b) => b
    case None => Brand(Upper(name[..if |name| < 3 then |name| else 3]), FallbackColor)
  }

  /** Every badge shows at most three characters and no lower-case ASCII
      letter, whether it comes from the table or from the fallback. */
  lemma BrandingAbbrIsShortUpper(name: string)
    ensures |Branding(name).abbr| <= 3
    ensures forall i :: 0 <= i < |Branding(name).abbr| ==> !('a' <= Branding(name).abbr[i] <= 'z')
  {
    TableAbbrIsShortUpper(name);
  }

  lemma TableAbbrIsShortUpper(name: string)
    ensures BrandingEntry(name).Some? ==>
              var abbr := BrandingEntry(name).value.abbr;
              2 <= |abbr| <= 3 && forall i :: 0 <= i < |abbr| ==> 'A' <= abbr[i] <= 'Z'
  {
    if BrandingEntry(name).Some? {
      var abbr := BrandingEntry(name).value.abbr;
      assert abbr in TableAbbrs;
      TableAbbrsAreShortUpper(abbr);
    }
  }

  /** The abbreviations the branding table hands out. */
  const TableAbbrs: set<string> := {"POR", "BMW", "MB", "FER", "NIS", "TOY", "AUD", "CHV", "FOR", "LAM",
    "JAG", "LRV", "LEX", "HON", "ACU", "MAZ", "SUB", "VW", "AMG", "DOD", "PLY", "PON", "OLD"}

  lemma TableAbbrsAreShortUpper(abbr: string)
    requires abbr in TableAbbrs
    ensures 2 <= |abbr| <= 3 && forall i :: 0 <= i < |abbr| ==> 'A' <= abbr[i] <= 'Z'
  {
  }
}
