/** Auction rows: validation of parsed CSV rows and grouping of the valid
    ones by quarter, manufacturer or model.

    Both dashboards filter rows the same way, except that the leaderboard
    (app.js) also requires a model name and the OHLC terminal
    (dashboard.js) does not. `parseFloat` is a parameter of the model:
    `parse(s)` is `None` exactly when `parseFloat(s)` is `NaN`. */
module Records {
  import opened Wrappers
  import opened Text
  import opened Stats
  import opened Sorting

  /** One row as the CSV parser delivers it; a missing cell is "". */
  datatype RawRow = RawRow(quarter: string, manufacturer: string, model: string,
                           miiScore: string, price: string)

  /** A row that survived validation, with its numbers parsed. A price that
      does not parse is `None` (`NaN`). */
  datatype Row = Row(quarter: string, manufacturer: string, model: string,
                     score: real, price: Option<real>)

  /** The quarter label of rows that belong to no quarter. */
  const InProgressQuarter: string := "IAF"

  /** Which of the two pages validates the rows. */
  datatype Page = Terminal | Leaderboard

  /** The filter of dashboard.js:115-121 and app.js:120-127. */
  predicate Accepts(page: Page, parse: string -> Option<real>, raw: RawRow)
  {
    && raw.quarter != ""
    && raw.quarter != InProgressQuarter
    && raw.manufacturer != ""
    && (page == Leaderboard ==> raw.model != "")
    && raw.miiScore != ""
    && parse(raw.miiScore).Some?
  }

  /** `parseFloat(row.price || 0)`: an empty price is 0; any other text is
      parsed and may be `NaN`. */
  function PriceOf(parse: string -> Option<real>, price: string): Option<real>
  {
    if price == "" then Some(0.0) else parse(price)
  }

  function Normalize(parse: string -> Option<real>, raw: RawRow): (r: Row)
    requires parse(raw.miiScore).Some?
    ensures r.quarter == raw.quarter && r.manufacturer == raw.manufacturer && r.model == raw.model
    ensures Some(r.score) == parse(raw.miiScore)
    ensures raw.price == "" ==> r.price == Some(0.0)
    ensures raw.price != "" ==> r.price == parse(raw.price)
  {
    Row(raw.quarter, raw.manufacturer, raw.model, parse(raw.miiScore).value, PriceOf(parse, raw.price))
  }

  /** A row that validation lets through. */
  predicate WellFormed(page: Page, row: Row)
  {
    && row.quarter != ""
    && row.quarter != InProgressQuarter
    && row.manufacturer != ""
    && (page == Leaderboard ==> row.model != "")
  }

  /** The rows that pass validation, parsed, in input order. */
  function Validate(page: Page, parse: string -> Option<real>, raws: seq<RawRow>): (rows: seq<Row>)
    ensures |rows| <= |raws|
    ensures forall i :: 0 <= i < |rows| ==> WellFormed(page, rows[i])
  {
    if |raws| == 0 then []
    else
      var last := raws[|raws| - 1];
      Validate(page, parse, raws[..|raws| - 1])
        + (if Accepts(page, parse, last) then [Normalize(parse, last)] else [])
  }

  /** A single row survives exactly when it is accepted. */
  lemma ValidateOne(page: Page, parse: string -> Option<real>, raw: RawRow)
    ensures Validate(page, parse, [raw])
         == if Accepts(page, parse, raw) then [Normalize(parse, raw)] else []
  {
    assert [raw][..0] == [];
  }

  /** Validation is a filter: it commutes with concatenation, so survivors
      keep their input order. */
  lemma {:induction false} ValidateAppend(page: Page, parse: string -> Option<real>,
                                          a: seq<RawRow>, b: seq<RawRow>)
    ensures Validate(page, parse, a + b) == Validate(page, parse, a) + Validate(page, parse, b)
    decreases |b|
  {
    if |b| == 0 {
      assert a + b == a;
    } else {
      assert (a + b)[..|a + b| - 1] == a + b[..|b| - 1];
      ValidateAppend(page, parse, a, b[..|b| - 1]);
    }
  }

  /** Every accepted row appears in the output, and every output row comes
      from an accepted input row. */
  lemma {:induction false} ValidateMembership(page: Page, parse: string -> Option<real>, raws: seq<RawRow>)
    ensures forall i :: 0 <= i < |raws| && Accepts(page, parse, raws[i]) ==>
              Normalize(parse, raws[i]) in Validate(page, parse, raws)
    ensures forall row :: row in Validate(page, parse, raws) ==>
              exists i :: 0 <= i < |raws| && Accepts(page, parse, raws[i]) && row == Normalize(parse, raws[i])
  {
    if |raws| > 0 {
      var init := raws[..|raws| - 1];
      ValidateMembership(page, parse, init);
      forall row | row in Validate(page, parse, raws)
        ensures exists i :: 0 <= i < |raws| && Accepts(page, parse, raws[i]) && row == Normalize(parse, raws[i])
      {
        if row in Validate(page, parse, init) {
          var i :| 0 <= i < |init| && Accepts(page, parse, init[i]) && row == Normalize(parse, init[i]);
          assert raws[i] == init[i];
        } else {
          assert Accepts(page, parse, raws[|raws| - 1]);
        }
      }
      forall i | 0 <= i < |raws| && Accepts(page, parse, raws[i])
        ensures Normalize(parse, raws[i]) in Validate(page, parse, raws)
      {
        if i < |raws| - 1 {
          assert raws[i] == init[i];
        }
      }
    }
  }

  /** The text columns rows are grouped by. */
  datatype Column = QuarterColumn | ManufacturerColumn | ModelColumn

  function Cell(c: Column, row: Row): string
  {
    match c
    case QuarterColumn => row.quarter
    case ManufacturerColumn => row.manufacturer
    case ModelColumn => row.model
  }

  /** The rows whose column `c` holds `v`, in input order
      (`rows.filter(r => r.quarter === q)` and the `mfrGroups` buckets). */
  function RowsWith(rows: seq<Row>, c: Column, v: string): (r: seq<Row>)
    ensures |r| <= |rows|
  {
    if |rows| == 0 then []
    else
      var last := rows[|rows| - 1];
      RowsWith(rows[..|rows| - 1], c, v) + (if Cell(c, last) == v then [last] else [])
  }

  /** `RowsWith` keeps exactly the rows whose column `c` holds `v`. */
  lemma {:induction false} RowsWithMembers(rows: seq<Row>, c: Column, v: string)
    ensures forall i :: 0 <= i < |RowsWith(rows, c, v)| ==>
              Cell(c, RowsWith(rows, c, v)[i]) == v && RowsWith(rows, c, v)[i] in rows
    ensures forall i :: 0 <= i < |rows| && Cell(c, rows[i]) == v ==> rows[i] in RowsWith(rows, c, v)
  {
    if |rows| > 0 {
      var init := rows[..|rows| - 1];
      RowsWithMembers(init, c, v);
      assert forall i :: 0 <= i < |init| ==> init[i] == rows[i];
    }
  }

  lemma RowsWithHas(rows: seq<Row>, c: Column, k: nat)
    requires k < |rows|
    ensures |RowsWith(rows, c, Cell(c, rows[k]))| > 0
  {
    RowsWithMembers(rows, c, Cell(c, rows[k]));
    assert rows[k] in RowsWith(rows, c, Cell(c, rows[k]));
  }

  /** The selection is empty when no row has `v` in column `c`. */
  lemma {:induction false} RowsWithEmpty(rows: seq<Row>, c: Column, v: string)
    requires forall i :: 0 <= i < |rows| ==> Cell(c, rows[i]) != v
    ensures RowsWith(rows, c, v) == []
  {
    if |rows| > 0 {
      RowsWithEmpty(rows[..|rows| - 1], c, v);
    }
  }

  lemma {:induction false} RowsWithAppend(a: seq<Row>, b: seq<Row>, c: Column, v: string)
    ensures RowsWith(a + b, c, v) == RowsWith(a, c, v) + RowsWith(b, c, v)
    decreases |b|
  {
    if |b| == 0 {
      assert a + b == a;
    } else {
      assert (a + b)[..|a + b| - 1] == a + b[..|b| - 1];
      RowsWithAppend(a, b[..|b| - 1], c, v);
    }
  }

  /** Selecting on two columns in either order gives the same rows. */
  lemma {:induction false} RowsWithCommute(rows: seq<Row>, c: Column, v: string, d: Column, w: string)
    ensures RowsWith(RowsWith(rows, c, v), d, w) == RowsWith(RowsWith(rows, d, w), c, v)
  {
    if |rows| > 0 {
      var init, last := rows[..|rows| - 1], rows[|rows| - 1];
      RowsWithCommute(init, c, v, d, w);
      var one := if Cell(c, last) == v then [last] else [];
      var two := if Cell(d, last) == w then [last] else [];
      RowsWithAppend(RowsWith(init, c, v), one, d, w);
      RowsWithAppend(RowsWith(init, d, w), two, c, v);
      assert one == [] || one == [last];
      assert two == [] || two == [last];
      assert [last][..0] == [];
    }
  }

  /** The distinct values of column `c`, in order of first appearance: the
      key order of the `mfrGroups` / `modelGroups` objects. */
  function FirstSeen(rows: seq<Row>, c: Column): (keys: seq<string>)
    ensures forall i, j :: 0 <= i < j < |keys| ==> keys[i] != keys[j]
    ensures forall v :: v in keys <==> exists i :: 0 <= i < |rows| && Cell(c, rows[i]) == v
  {
    if |rows| == 0 then []
    else
      var init := FirstSeen(rows[..|rows| - 1], c);
      var v := Cell(c, rows[|rows| - 1]);
      assert forall i :: 0 <= i < |rows| - 1 ==> rows[..|rows| - 1][i] == rows[i];
      if v in init then init else init + [v]
  }

  /** Position of the first row whose column `c` holds `v`, or `|rows|` when
      there is none. */
  function FirstIndex(rows: seq<Row>, c: Column, v: string): (k: nat)
    ensures k <= |rows|
    ensures forall i :: 0 <= i < k ==> Cell(c, rows[i]) != v
    ensures k < |rows| ==> Cell(c, rows[k]) == v
  {
    if |rows| == 0 then 0
    else if Cell(c, rows[0]) == v then 0
    else
      var k := FirstIndex(rows[1..], c, v);
      assert forall i :: 1 <= i <= k ==> rows[i] == rows[1..][i - 1];
      1 + k
  }

  /** Appending rows does not move a value's first appearance. */
  lemma FirstIndexPrefix(rows: seq<Row>, n: nat, c: Column, v: string, w: nat)
    requires w < n <= |rows| && Cell(c, rows[w]) == v
    ensures FirstIndex(rows, c, v) == FirstIndex(rows[..n], c, v) < n
  {
    var a := FirstIndex(rows[..n], c, v);
    var b := FirstIndex(rows, c, v);
    assert rows[..n][w] == rows[w];
    assert a < n;
    assert rows[..n][a] == rows[a];
  }

  /** A value absent from the first `n` rows first appears no earlier than
      row `n`. */
  lemma FirstIndexAbsent(rows: seq<Row>, n: nat, c: Column, v: string)
    requires n <= |rows| && v !in FirstSeen(rows[..n], c)
    ensures FirstIndex(rows, c, v) >= n
  {
  }

  /** Each key of `keys` first appears in `rows` before the keys after it. */
  predicate InFirstOrder(rows: seq<Row>, c: Column, keys: seq<string>)
  {
    forall i, j :: 0 <= i < j < |keys| ==> FirstIndex(rows, c, keys[i]) < FirstIndex(rows, c, keys[j])
  }

  /** The keys of the first `n` rows keep their first positions once more
      rows follow. */
  lemma FirstIndexKept(rows: seq<Row>, n: nat, c: Column)
    requires n <= |rows|
    ensures var ks := FirstSeen(rows[..n], c);
            forall k :: 0 <= k < |ks| ==> FirstIndex(rows, c, ks[k]) == FirstIndex(rows[..n], c, ks[k]) < n
  {
    var ks := FirstSeen(rows[..n], c);
    forall k | 0 <= k < |ks| ensures FirstIndex(rows, c, ks[k]) == FirstIndex(rows[..n], c, ks[k]) < n {
      assert ks[k] in ks;
      var w :| 0 <= w < n && Cell(c, rows[..n][w]) == ks[k];
      FirstIndexPrefix(rows, n, c, ks[k], w);
    }
  }

  /** One step of `FirstSeen`: the last row's value joins the keys when it
      is new. */
  lemma FirstSeenStep(rows: seq<Row>, c: Column)
    requires |rows| > 0
    ensures var ks := FirstSeen(rows[..|rows| - 1], c);
            var v := Cell(c, rows[|rows| - 1]);
            FirstSeen(rows, c) == if v in ks then ks else ks + [v]
  {
  }

  /** Keys come out in the order of their first appearance in the rows. */
  lemma {:induction false} FirstSeenOrder(rows: seq<Row>, c: Column)
    ensures InFirstOrder(rows, c, FirstSeen(rows, c))
  {
    if |rows| > 0 {
      var n := |rows| - 1;
      var ks := FirstSeen(rows[..n], c);
      var v := Cell(c, rows[n]);
      FirstSeenOrder(rows[..n], c);
      FirstIndexKept(rows, n, c);
      FirstSeenStep(rows, c);
      if v in ks {
        InFirstOrderKept(rows, c, ks, n);
      } else {
        FirstIndexAbsent(rows, n, c, v);
        InFirstOrderAppend(rows, c, ks, v, n);
      }
    }
  }

  lemma InFirstOrderKept(rows: seq<Row>, c: Column, ks: seq<string>, n: nat)
    requires n <= |rows| && InFirstOrder(rows[..n], c, ks)
    requires forall k :: 0 <= k < |ks| ==> FirstIndex(rows, c, ks[k]) == FirstIndex(rows[..n], c, ks[k]) < n
    ensures InFirstOrder(rows, c, ks)
  {
  }

  lemma InFirstOrderAppend(rows: seq<Row>, c: Column, ks: seq<string>, v: string, n: nat)
    requires n <= |rows| && InFirstOrder(rows[..n], c, ks)
    requires forall k :: 0 <= k < |ks| ==> FirstIndex(rows, c, ks[k]) == FirstIndex(rows[..n], c, ks[k]) < n
    requires FirstIndex(rows, c, v) >= n
    ensures InFirstOrder(rows, c, ks + [v])
  {
    var keys := ks + [v];
    forall i, j | 0 <= i < j < |keys|
      ensures FirstIndex(rows, c, keys[i]) < FirstIndex(rows, c, keys[j])
    {
      assert keys[i] == ks[i];
      if j < |ks| {
        assert keys[j] == ks[j];
      }
    }
  }

  /** Number of times `v` occurs in `keys`. */
  function Occurrences(keys: seq<string>, v: string): nat
  {
    if |keys| == 0 then 0
    else Occurrences(keys[..|keys| - 1], v) + (if keys[|keys| - 1] == v then 1 else 0)
  }

  lemma {:induction false} OccurrencesOfDistinct(keys: seq<string>, v: string)
    requires forall i, j :: 0 <= i < j < |keys| ==> keys[i] != keys[j]
    ensures Occurrences(keys, v) == if v in keys then 1 else 0
  {
    if |keys| > 0 {
      var init := keys[..|keys| - 1];
      OccurrencesOfDistinct(init, v);
      assert keys == init + [keys[|keys| - 1]];
    }
  }

  /** Total number of rows over the groups named by `keys`. */
  function GroupTotal(rows: seq<Row>, c: Column, keys: seq<string>): nat
  {
    if |keys| == 0 then 0
    else GroupTotal(rows, c, keys[..|keys| - 1]) + |RowsWith(rows, c, keys[|keys| - 1])|
  }

  lemma {:induction false} GroupTotalStep(rows: seq<Row>, row: Row, c: Column, keys: seq<string>)
    ensures GroupTotal(rows + [row], c, keys)
         == GroupTotal(rows, c, keys) + Occurrences(keys, Cell(c, row))
  {
    if |keys| > 0 {
      GroupTotalStep(rows, row, c, keys[..|keys| - 1]);
      RowsWithAppend(rows, [row], c, keys[|keys| - 1]);
      assert [row][..0] == [];
    }
  }

  /** Grouping partitions the rows: if `keys` lists every value of column
      `c` exactly once, the group sizes add up to the number of rows. */
  lemma {:induction false} GroupsPartition(rows: seq<Row>, c: Column, keys: seq<string>)
    requires forall i, j :: 0 <= i < j < |keys| ==> keys[i] != keys[j]
    requires forall i :: 0 <= i < |rows| ==> Cell(c, rows[i]) in keys
    ensures GroupTotal(rows, c, keys) == |rows|
  {
    if |rows| == 0 {
      GroupTotalOfEmpty(c, keys);
    } else {
      var init, last := rows[..|rows| - 1], rows[|rows| - 1];
      GroupsPartition(init, c, keys);
      assert rows == init + [last];
      GroupTotalStep(init, last, c, keys);
      OccurrencesOfDistinct(keys, Cell(c, last));
    }
  }

  lemma {:induction false} GroupTotalOfEmpty(c: Column, keys: seq<string>)
    ensures GroupTotal([], c, keys) == 0
  {
    if |keys| > 0 {
      GroupTotalOfEmpty(c, keys[..|keys| - 1]);
    }
  }

  /** Values of column `c` in strictly increasing string order. */
  predicate StrictlyIncreasing(keys: seq<string>)
  {
    forall i, j :: 0 <= i < j < |keys| ==> StrLt(keys[i], keys[j])
  }

  lemma StrictlyIncreasingIsDistinct(keys: seq<string>)
    requires StrictlyIncreasing(keys)
    ensures forall i, j :: 0 <= i < j < |keys| ==> keys[i] != keys[j]
  {
    forall i, j | 0 <= i < j < |keys| ensures keys[i] != keys[j] {
      if keys[i] == keys[j] {
        StrLtIrreflexive(keys[i]);
      }
    }
  }

  /** Insert `v` into a strictly increasing sequence unless already there. */
  function InsertKey(keys: seq<string>, v: string): (r: seq<string>)
    requires StrictlyIncreasing(keys)
    ensures StrictlyIncreasing(r)
    ensures forall w :: w in r <==> w in keys || w == v
  {
    if |keys| == 0 then [v]
    else
      var last := keys[|keys| - 1];
      if last == v then keys
      else if StrLt(last, v) then
        assert forall i :: 0 <= i < |keys| - 1 ==> StrLt(keys[i], v) by {
          forall i | 0 <= i < |keys| - 1 ensures StrLt(keys[i], v) {
            StrLtTransitive(keys[i], last, v);
          }
        }
        keys + [v]
      else
        StrLtTotal(last, v);
        var init := keys[..|keys| - 1];
        assert forall w :: w in keys <==> w in init || w == last;
        var r := InsertKey(init, v) + [last];
        assert forall i :: 0 <= i < |r| - 1 ==> StrLt(r[i], last) by {
          forall i | 0 <= i < |r| - 1 ensures StrLt(r[i], last) {
            assert r[i] in init || r[i] == v;
          }
        }
        r
  }

  /** `[...new Set(rows.map(r => r.quarter))].sort()`: the distinct quarter
      labels in strictly increasing order. */
  function Quarters(rows: seq<Row>): (qs: seq<string>)
    ensures StrictlyIncreasing(qs)
    ensures forall q :: q in qs <==> exists i :: 0 <= i < |rows| && rows[i].quarter == q
  {
    if |rows| == 0 then []
    else
      var init := rows[..|rows| - 1];
      assert forall i :: 0 <= i < |init| ==> init[i] == rows[i];
      InsertKey(Quarters(init), rows[|rows| - 1].quarter)
  }

  lemma QuartersDistinct(rows: seq<Row>)
    ensures forall i, j :: 0 <= i < j < |Quarters(rows)| ==> Quarters(rows)[i] != Quarters(rows)[j]
  {
    StrictlyIncreasingIsDistinct(Quarters(rows));
  }

  /** The scores of `rows`. */
  function Scores(rows: seq<Row>): (s: seq<real>)
    ensures |s| == |rows|
    ensures forall i :: 0 <= i < |rows| ==> s[i] == rows[i].score
  {
    seq(|rows|, i requires 0 <= i < |rows| => rows[i].score)
  }

  /** The prices of `rows`, `NaN` as `None`. */
  function Prices(rows: seq<Row>): (s: seq<Option<real>>)
    ensures |s| == |rows|
    ensures forall i :: 0 <= i < |rows| ==> s[i] == rows[i].price
  {
    seq(|rows|, i requires 0 <= i < |rows| => rows[i].price)
  }

  /** The rows of the quarters `qs`, quarter by quarter and within a
      quarter in input order: the order the per-manufacturer loop of
      dashboard.js:154-163 visits them, and the YTD rows of app.js:283. */
  function QuarterOrder(rows: seq<Row>, qs: seq<string>): seq<Row>
  {
    if |qs| == 0 then []
    else QuarterOrder(rows, qs[..|qs| - 1]) + RowsWith(rows, QuarterColumn, qs[|qs| - 1])
  }

  lemma {:induction false} QuarterOrderMembers(rows: seq<Row>, qs: seq<string>)
    ensures forall x :: x in QuarterOrder(rows, qs) <==> x in rows && x.quarter in qs
  {
    if |qs| > 0 {
      var init, q := qs[..|qs| - 1], qs[|qs| - 1];
      var g := RowsWith(rows, QuarterColumn, q);
      QuarterOrderMembers(rows, init);
      RowsWithMembers(rows, QuarterColumn, q);
      assert qs == init + [q];
      forall x ensures x in QuarterOrder(rows, qs) <==> x in rows && x.quarter in qs {
        if x in g {
          var k :| 0 <= k < |g| && g[k] == x;
        }
        if x in rows && x.quarter == q {
          var k :| 0 <= k < |rows| && rows[k] == x;
        }
      }
    }
  }

  /** One record per group, each counting its group's rows: the counts
      add up to the group total. */
  lemma {:induction false} GroupSums<T>(rows: seq<Row>, c: Column, names: seq<string>,
                                        f: string -> T, count: T -> nat)
    requires forall n :: count(f(n)) == |RowsWith(rows, c, n)|
    ensures SumBy(MapSeq(names, f), count) == GroupTotal(rows, c, names)
  {
    if |names| > 0 {
      var init, last := names[..|names| - 1], names[|names| - 1];
      GroupSums(rows, c, init, f, count);
      SumByAppend(MapSeq(init, f), [f(last)], count);
      assert [f(last)][..0] == [];
    }
  }

  /** Group the rows by column `c`, build one record per group with `f` and
      sort the records by `key`: the records' counts add up to the number
      of rows. */
  lemma GroupedSortedSum<T>(rows: seq<Row>, c: Column, f: string -> T, count: T -> nat, key: T -> Key)
    requires forall n :: count(f(n)) == |RowsWith(rows, c, n)|
    ensures SumBy(SortStable(MapSeq(FirstSeen(rows, c), f), key), count) == |rows|
  {
    var names := FirstSeen(rows, c);
    var g := MapSeq(names, f);
    SumByPermutation(g, SortStable(g, key), count);
    GroupSums(rows, c, names, f, count);
    assert forall i :: 0 <= i < |rows| ==> Cell(c, rows[i]) in names;
    GroupsPartition(rows, c, names);
  }

  /** ... and each record is the one of its own group. */
  lemma GroupedSortedEntries<T>(rows: seq<Row>, c: Column, f: string -> T, name: T -> string, key: T -> Key)
    requires forall n :: name(f(n)) == n
    ensures forall x :: x in SortStable(MapSeq(FirstSeen(rows, c), f), key) ==>
              x == f(name(x)) && name(x) in FirstSeen(rows, c)
  {
    var names := FirstSeen(rows, c);
    var g := MapSeq(names, f);
    forall x | x in SortStable(g, key) ensures x == f(name(x)) && name(x) in names {
      assert x in multiset(g);
      var i :| 0 <= i < |g| && g[i] == x;
    }
  }

  /** ... and every group has its record. */
  lemma GroupedSortedCovers<T>(rows: seq<Row>, c: Column, f: string -> T, key: T -> Key)
    ensures forall n :: n in FirstSeen(rows, c) ==> f(n) in SortStable(MapSeq(FirstSeen(rows, c), f), key)
  {
    var names := FirstSeen(rows, c);
    var g := MapSeq(names, f);
    forall n | n in names ensures f(n) in SortStable(g, key) {
      var i :| 0 <= i < |names| && names[i] == n;
      assert g[i] in multiset(SortStable(g, key));
    }
  }

  /** ... and no two records are of the same group. */
  lemma GroupedSortedDistinct<T>(rows: seq<Row>, c: Column, f: string -> T, name: T -> string, key: T -> Key)
    requires forall n :: name(f(n)) == n
    ensures var s := SortStable(MapSeq(FirstSeen(rows, c), f), key);
            && |s| == |FirstSeen(rows, c)|
            && forall i, j :: 0 <= i < j < |s| ==> name(s[i]) != name(s[j])
  {
    var names := FirstSeen(rows, c);
    var g := MapSeq(names, f);
    var s := SortStable(g, key);
    forall i, j | 0 <= i < j < |g| ensures g[i] != g[j] {
      assert name(g[i]) == names[i] && name(g[j]) == names[j];
    }
    GroupedSortedEntries(rows, c, f, name, key);
    forall i, j | 0 <= i < j < |s| ensures name(s[i]) != name(s[j]) {
      if name(s[i]) == name(s[j]) {
        assert s[i] in s && s[j] in s;
        assert s[i] == s[j];
        RepeatCount(s, i, j);
        NoRepeatCount(g, s[i]);
        assert false;
      }
    }
  }
}
