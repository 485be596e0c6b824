/** The computations inside the dashboard's chart components: the top-ten
    reserves ranking, the series keys of the price chart, colour cycling and
    the legend label of a production chart. */
module Dashboard {
  import opened Types
  import opened JsString
  import opened Data
  import DataFacts

  /** The comparator's key: `x.reserves || 0`. */
  function Key(x: WorldReserveItem): int
  {
    OrZero(x.reserves)
  }

  /** Non-increasing in reserves: what `(a, b) => key(b) - key(a)` sorts to. */
  predicate SortedDesc(s: seq<WorldReserveItem>)
  {
    forall i, j :: 0 <= i < j < |s| ==> Key(s[i]) >= Key(s[j])
  }

  /** The rows of `s` whose key is `k`, in the order `s` has them. */
  function WithKey(s: seq<WorldReserveItem>, k: int): (r: seq<WorldReserveItem>)
    ensures |r| <= |s|
  {
    if s == [] then []
    else if Key(s[0]) == k then [s[0]] + WithKey(s[1..], k)
    else WithKey(s[1..], k)
  }

  /** A row followed by a sorted sequence is sorted when the row's key is at
      least the key of the sequence's head. */
  lemma SortedCons(a: WorldReserveItem, t: seq<WorldReserveItem>)
    requires SortedDesc(t) && (t == [] || Key(a) >= Key(t[0]))
    ensures SortedDesc([a] + t)
  {
    var r := [a] + t;
    forall i, j | 0 <= i < j < |r| ensures Key(r[i]) >= Key(r[j]) {
      if i == 0 { assert r[j] == t[j - 1]; assert Key(t[0]) >= Key(t[j - 1]); }
      else { assert r[i] == t[i - 1] && r[j] == t[j - 1]; }
    }
  }

  /** Places `x` in front of the first row whose key is not larger than its
      own, so `x` stays ahead of rows with an equal key. */
  function Insert(x: WorldReserveItem, t: seq<WorldReserveItem>): (r: seq<WorldReserveItem>)
    ensures multiset(r) == multiset(t) + multiset{x}
    ensures |r| == |t| + 1 && (r[0] == x || (t != [] && r[0] == t[0]))
  {
    if t == [] || Key(x) >= Key(t[0]) then [x] + t
    else
      assert t == [t[0]] + t[1..];
      [t[0]] + Insert(x, t[1..])
  }

  /** Inserting into a sorted sequence keeps it sorted. */
  lemma {:induction false} InsertSorted(x: WorldReserveItem, t: seq<WorldReserveItem>)
    requires SortedDesc(t)
    ensures SortedDesc(Insert(x, t))
  {
    if t == [] || Key(x) >= Key(t[0]) {
      SortedCons(x, t);
    } else {
      assert SortedDesc(t[1..]);
      assert |t| > 1 ==> Key(t[0]) >= Key(t[1]);
      InsertSorted(x, t[1..]);
      SortedCons(t[0], Insert(x, t[1..]));
    }
  }

  /** A stable sort by reserves, largest first: each row is inserted ahead of
      the later rows with the same key. */
  function SortByReserves(s: seq<WorldReserveItem>): (r: seq<WorldReserveItem>)
    ensures |r| == |s|
  {
    if s == [] then [] else Insert(s[0], SortByReserves(s[1..]))
  }

  /** The sort orders by reserves, largest first, and only reorders: the
      result has exactly the rows of its input. */
  lemma {:induction false} SortByReservesSorted(s: seq<WorldReserveItem>)
    ensures SortedDesc(SortByReserves(s))
    ensures multiset(SortByReserves(s)) == multiset(s)
  {
    if s != [] {
      assert s == [s[0]] + s[1..];
      SortByReservesSorted(s[1..]);
      InsertSorted(s[0], SortByReserves(s[1..]));
    }
  }

  /** Inserting `x` adds it at the head of its own key's rows and leaves
      every other key's rows as they were. */
  lemma {:induction false} WithKeyInsert(x: WorldReserveItem, t: seq<WorldReserveItem>, k: int)
    ensures WithKey(Insert(x, t), k) == (if Key(x) == k then [x] else []) + WithKey(t, k)
  {
    if t == [] || Key(x) >= Key(t[0]) {
      assert ([x] + t)[1..] == t;
    } else {
      var r := [t[0]] + Insert(x, t[1..]);
      assert r[1..] == Insert(x, t[1..]);
      WithKeyInsert(x, t[1..], k);
    }
  }

  /** Stability: sorting keeps the relative order of the rows that share a
      key. */
  lemma {:induction false} SortStable(s: seq<WorldReserveItem>, k: int)
    ensures WithKey(SortByReserves(s), k) == WithKey(s, k)
  {
    if s != [] {
      SortStable(s[1..], k);
      WithKeyInsert(s[0], SortByReserves(s[1..]), k);
    }
  }

  /** In a sorted sequence nothing has a larger key than the head. */
  lemma {:induction false} WithKeyBelowHead(s: seq<WorldReserveItem>, k: int)
    requires SortedDesc(s) && WithKey(s, k) != []
    ensures s != [] && k <= Key(s[0])
  {
    if s != [] && Key(s[0]) != k {
      assert SortedDesc(s[1..]);
      WithKeyBelowHead(s[1..], k);
    }
  }

  /** Two sorted sequences that agree, key by key, on their rows in order
      are the same sequence. */
  lemma {:induction false} SortedByKeyGroupsUnique(a: seq<WorldReserveItem>, b: seq<WorldReserveItem>)
    requires SortedDesc(a) && SortedDesc(b)
    requires forall k :: WithKey(a, k) == WithKey(b, k)
    ensures a == b
  {
    // each non-empty side has a row of its head's key; the other side then has one too
    if a != [] { assert WithKey(a, Key(a[0])) != []; }
    if b != [] { assert WithKey(b, Key(b[0])) != []; }
    if a != [] && b != [] {
      WithKeyBelowHead(b, Key(a[0]));
      WithKeyBelowHead(a, Key(b[0]));
      var k := Key(a[0]);
      assert Key(b[0]) == k;
      assert WithKey(a, k) == [a[0]] + WithKey(a[1..], k);
      assert WithKey(b, k) == [b[0]] + WithKey(b[1..], k);
      assert WithKey(a, k) == WithKey(b, k);
      assert WithKey(a, k)[0] == a[0] && WithKey(b, k)[0] == b[0];
      assert WithKey(a[1..], k) == WithKey(a, k)[1..] == WithKey(b, k)[1..] == WithKey(b[1..], k);
      assert SortedDesc(a[1..]) && SortedDesc(b[1..]);
      forall k' ensures WithKey(a[1..], k') == WithKey(b[1..], k') {
        assert WithKey(a, k') == WithKey(b, k');
        if k' != k {
          assert WithKey(a, k') == WithKey(a[1..], k');
          assert WithKey(b, k') == WithKey(b[1..], k');
        }
      }
      SortedByKeyGroupsUnique(a[1..], b[1..]);
    }
  }

  /** Any stable sort by reserves, largest first, gives the same sequence as
      `SortByReserves`, whatever algorithm the engine uses. */
  lemma StableSortUnique(s: seq<WorldReserveItem>, t: seq<WorldReserveItem>)
    requires SortedDesc(t)
    requires forall k :: WithKey(t, k) == WithKey(s, k)
    ensures t == SortByReserves(s)
  {
    SortByReservesSorted(s);
    forall k ensures WithKey(t, k) == WithKey(SortByReserves(s), k) {
      SortStable(s, k);
    }
    SortedByKeyGroupsUnique(t, SortByReserves(s));
  }

  function Min(a: int, b: int): int
  {
    if a <= b then a else b
  }

  /** The filter of a prefix is a prefix of the filter. */
  lemma {:induction false} WithKeyPrefix(s: seq<WorldReserveItem>, n: nat, k: int)
    requires n <= |s|
    ensures var p := WithKey(s[..n], k); |p| <= |WithKey(s, k)| && p == WithKey(s, k)[..|p|]
  {
    if n > 0 {
      assert s[..n][1..] == s[1..][..n - 1];
      WithKeyPrefix(s[1..], n - 1, k);
    }
  }

  /** Cutting a sorted sequence after `n` rows: the kept rows are sorted,
      the rows cut are exactly what the kept ones leave of the whole, and
      none of them has a larger key than a kept row. */
  lemma SortedTake(s: seq<WorldReserveItem>, n: nat)
    requires SortedDesc(s) && n <= |s|
    ensures SortedDesc(s[..n])
    ensures multiset(s[..n]) <= multiset(s)
    ensures multiset(s) - multiset(s[..n]) == multiset(s[n..])
    ensures forall x, y :: x in s[..n] && y in multiset(s[n..]) ==> Key(x) >= Key(y)
  {
    assert s == s[..n] + s[n..];
    assert multiset(s) == multiset(s[..n]) + multiset(s[n..]);
    SortedTakeDominates(s, n);
  }

  /** In a sorted sequence every row before position `n` has a key at least
      that of every row from `n` on. */
  lemma SortedTakeDominates(s: seq<WorldReserveItem>, n: nat)
    requires SortedDesc(s) && n <= |s|
    ensures forall x, y :: x in s[..n] && y in multiset(s[n..]) ==> Key(x) >= Key(y)
  {
    forall x, y | x in s[..n] && y in multiset(s[n..]) ensures Key(x) >= Key(y) {
      var i :| 0 <= i < n && s[..n][i] == x;
      assert y in s[n..];
      var j :| 0 <= j < |s| - n && s[n..][j] == y;
      assert s[i] == x && s[n + j] == y;
    }
  }

  /** `[...data].sort((a, b) => (b.reserves || 0) - (a.reserves || 0)).slice(0, 10)`:
      at most ten rows, largest reserves first, drawn from `data` with no row
      repeated more often than `data` has it, all of `data` when it has ten
      rows or fewer, rows with equal reserves in their table order, and no
      row left out with larger reserves than a row kept. `data` is a value:
      the spread copy means the table itself is not reordered. */
  function TopReserves(data: seq<WorldReserveItem>): (r: seq<WorldReserveItem>)
    ensures |r| == Min(10, |data|)
    ensures SortedDesc(r)
    ensures multiset(r) <= multiset(data)
    ensures |data| <= 10 ==> multiset(r) == multiset(data)
    ensures forall k :: (|WithKey(r, k)| <= |WithKey(data, k)|
      && WithKey(r, k) == WithKey(data, k)[..|WithKey(r, k)|])
    ensures forall x, y :: x in r && y in multiset(data) - multiset(r) ==> Key(x) >= Key(y)
  {
    var sorted := SortByReserves(data);
    var n := Min(10, |data|);
    SortByReservesSorted(data);
    SortedTake(sorted, n);
    SortedPrefixByKey(data, n);
    assert |data| <= 10 ==> sorted[..n] == sorted;
    sorted[..n]
  }

  /** The first `n` rows of the sort hold, for each key, the first rows of
      that key in table order. */
  lemma SortedPrefixByKey(data: seq<WorldReserveItem>, n: nat)
    requires n <= |data|
    ensures var p := SortByReserves(data)[..n];
      forall k :: |WithKey(p, k)| <= |WithKey(data, k)| && WithKey(p, k) == WithKey(data, k)[..|WithKey(p, k)|]
  {
    var sorted := SortByReserves(data);
    forall k ensures |WithKey(sorted[..n], k)| <= |WithKey(data, k)|
      && WithKey(sorted[..n], k) == WithKey(data, k)[..|WithKey(sorted[..n], k)|]
    {
      SortStable(data, k);
      WithKeyPrefix(sorted, n, k);
    }
  }

  /** No two rows share a key. */
  predicate DistinctKeys(s: seq<WorldReserveItem>)
  {
    forall i, j :: 0 <= i < j < |s| ==> Key(s[i]) != Key(s[j])
  }

  /** A key no row has picks out nothing. */
  lemma {:induction false} WithKeyAbsent(s: seq<WorldReserveItem>, k: int)
    requires forall i :: 0 <= i < |s| ==> Key(s[i]) != k
    ensures WithKey(s, k) == []
  {
    if s != [] {
      WithKeyAbsent(s[1..], k);
    }
  }

  /** When keys are distinct a key picks out at most one row: the row of `s`
      with that key, if any. */
  lemma {:induction false} WithKeyDistinct(s: seq<WorldReserveItem>, k: int)
    requires DistinctKeys(s)
    ensures |WithKey(s, k)| <= 1
    ensures forall x :: x in WithKey(s, k) <==> x in s && Key(x) == k
  {
    if s != [] {
      assert DistinctKeys(s[1..]);
      WithKeyDistinct(s[1..], k);
      if Key(s[0]) == k {
        WithKeyAbsent(s[1..], k);
      }
    }
  }

  /** Two tables with the same rows and no repeated key agree on the rows of
      every key. */
  lemma SameRowsDistinctKeys(a: seq<WorldReserveItem>, b: seq<WorldReserveItem>)
    requires DistinctKeys(a) && DistinctKeys(b)
    requires forall x :: x in a <==> x in b
    ensures forall k :: WithKey(a, k) == WithKey(b, k)
  {
    forall k ensures WithKey(a, k) == WithKey(b, k) {
      WithKeyDistinct(a, k);
      WithKeyDistinct(b, k);
      var p, q := WithKey(a, k), WithKey(b, k);
      if p != [] { assert p[0] in q; }
      if q != [] { assert q[0] in p; }
    }
  }

  /** The dashboard's table of eleven countries ranked by reserves. */
  const RANKED_RESERVES: seq<WorldReserveItem> := [
    WorldReserveItem("China", Some(44000000)),
    WorldReserveItem("Brazil", Some(21000000)),
    WorldReserveItem("India", Some(6900000)),
    WorldReserveItem("Australia", Some(5700000)),
    WorldReserveItem("Russia", Some(3800000)),
    WorldReserveItem("Vietnam", Some(3500000)),
    WorldReserveItem("United States", Some(1900000)),
    WorldReserveItem("Greenland", Some(1500000)),
    WorldReserveItem("Tanzania", Some(890000)),
    WorldReserveItem("South Africa", Some(860000)),
    WorldReserveItem("Canada", Some(830000))
  ]

  lemma RankedIsSorted()
    ensures SortedDesc(RANKED_RESERVES)
  {
  }

  lemma RankedKeysDistinct()
    ensures DistinctKeys(RANKED_RESERVES)
  {
  }

  lemma TableKeysDistinct()
    ensures DistinctKeys(WORLD_RESERVES_DATA)
  {
  }

  lemma RankedSameRows()
    ensures forall x :: x in RANKED_RESERVES <==> x in WORLD_RESERVES_DATA
  {
  }

  /** The ranking is what the stable sort makes of the table. */
  lemma SortedReservesTable()
    ensures SortByReserves(WORLD_RESERVES_DATA) == RANKED_RESERVES
  {
    RankedIsSorted();
    RankedKeysDistinct();
    TableKeysDistinct();
    RankedSameRows();
    SameRowsDistinctKeys(RANKED_RESERVES, WORLD_RESERVES_DATA);
    StableSortUnique(WORLD_RESERVES_DATA, RANKED_RESERVES);
  }

  /** The top ten of a table of eleven rows is its ranking without the last. */
  lemma TopOfEleven(data: seq<WorldReserveItem>, ranked: seq<WorldReserveItem>)
    requires |data| == 11 && SortByReserves(data) == ranked
    ensures TopReserves(data) == ranked[..10]
  {
  }

  /** On the dashboard's own table the chart shows its first ten ranks. */
  lemma TopReservesOfTable()
    ensures TopReserves(WORLD_RESERVES_DATA) == RANKED_RESERVES[..10]
  {
    SortedReservesTable();
    TopOfEleven(WORLD_RESERVES_DATA, RANKED_RESERVES);
  }

  /** Of the eleven countries the chart shows China (44,000,000) first and
      leaves out only Canada (830,000), the smallest; Tanzania and South
      Africa are the last two shown. */
  lemma TopTenOfRanking(top: seq<WorldReserveItem>)
    requires top == RANKED_RESERVES[..10]
    ensures |top| == 10
    ensures top[0] == WorldReserveItem("China", Some(44000000))
    ensures top[8..] == [
      WorldReserveItem("Tanzania", Some(890000)), WorldReserveItem("South Africa", Some(860000))]
    ensures forall x :: x in WORLD_RESERVES_DATA && x !in top <==>
      x == WorldReserveItem("Canada", Some(830000))
  {
    RankedSameRows();
  }

  /** `keys.filter(key => key !== k)`: the keys other than `k`, in order. */
  function Without(keys: seq<string>, k: string): (r: seq<string>)
    ensures |r| <= |keys|
    ensures forall x :: x in r <==> x in keys && x != k
  {
    if keys == [] then []
    else if keys[0] == k then Without(keys[1..], k)
    else [keys[0]] + Without(keys[1..], k)
  }

  /** Filtering keeps order: the filter of a concatenation is the
      concatenation of the filters. */
  lemma {:induction false} WithoutAppend(a: seq<string>, b: seq<string>, k: string)
    ensures Without(a + b, k) == Without(a, k) + Without(b, k)
  {
    if a != [] {
      assert (a + b)[0] == a[0];
      assert (a + b)[1..] == a[1..] + b;
      WithoutAppend(a[1..], b, k);
      if a[0] != k {
        assert Without(a + b, k) == [a[0]] + Without(a[1..] + b, k);
      }
    } else {
      assert a + b == b;
    }
  }

  /** Filtering out a key that is not there changes nothing. */
  lemma {:induction false} WithoutAbsent(keys: seq<string>, k: string)
    requires k !in keys
    ensures Without(keys, k) == keys
  {
    if keys != [] {
      WithoutAbsent(keys[1..], k);
    }
  }

  /** The series of the price chart: the first row's own keys, in order,
      other than `year`; none when there are no rows. */
  function PriceKeys(data: seq<SalientPriceItem>): (keys: seq<string>)
    requires data != [] ==> PlainKeys(data[0])
    ensures data == [] ==> keys == []
    ensures forall x :: x in keys <==> data != [] && x in ObjectKeys(data[0]) && x != "year"
  {
    if |data| > 0 then Without(ObjectKeys(data[0]), "year") else []
  }

  /** A first row that starts with `year`, followed by keys none of which is
      `year`, gives exactly those keys, in their order. */
  lemma PriceKeysAfterYear(data: seq<SalientPriceItem>, rest: seq<string>)
    requires data != [] && PlainKeys(data[0])
    requires ObjectKeys(data[0]) == ["year"] + rest && "year" !in rest
    ensures PriceKeys(data) == rest
  {
    WithoutAppend(["year"], rest, "year");
    WithoutAbsent(rest, "year");
  }

  /** The price chart draws one line per oxide, in the order the rows list
      the oxides. */
  lemma PriceChartSeries()
    ensures PlainKeys(SALIENT_PRICES_DATA[0])
    ensures PriceKeys(SALIENT_PRICES_DATA) == OXIDES
  {
    DataFacts.PriceRowsShareKeys();
    PriceKeysAfterYear(SALIENT_PRICES_DATA, OXIDES);
  }

  /** The palette of the price chart's lines. */
  const LINE_COLORS: seq<string> := ["#8884d8", "#82ca9d", "#ffc658", "#ff7300"]

  /** The palette of the import-sources pie's slices. */
  const PIE_COLORS: seq<string> := ["#0088FE", "#00C49F", "#FFBB28", "#FF8042", "#8884D8", "#82CA9D"]

  /** `palette[index % palette.length]`: the index always falls inside the
      palette, and the first `|palette|` series take its colours in order. */
  function CycleColor(palette: seq<string>, index: nat): (c: string)
    requires palette != []
    ensures c in palette
    ensures index < |palette| ==> c == palette[index]
  {
    palette[index % |palette|]
  }

  /** A palette with no colour twice. */
  predicate DistinctColors(palette: seq<string>)
  {
    forall i, j :: 0 <= i < j < |palette| ==> palette[i] != palette[j]
  }

  /** With a palette of distinct colours two series share a colour exactly
      when their indices agree modulo the palette's length. */
  lemma CycleSameColor(palette: seq<string>, i: nat, j: nat)
    requires palette != [] && DistinctColors(palette)
    ensures CycleColor(palette, i) == CycleColor(palette, j) <==> i % |palette| == j % |palette|
  {
    var a, b := i % |palette|, j % |palette|;
    if a < b {
      assert palette[a] != palette[b];
    } else if b < a {
      assert palette[b] != palette[a];
    }
  }

  lemma PalettesDistinct()
    ensures DistinctColors(LINE_COLORS) && DistinctColors(PIE_COLORS)
  {
  }

  /** The four price series (the oxides, by `PriceChartSeries`) and the five
      import-source slices all get colours of their own. */
  lemma DashboardColorsDistinct()
    ensures forall i: nat, j: nat :: i < j < |OXIDES| ==>
      CycleColor(LINE_COLORS, i) != CycleColor(LINE_COLORS, j)
    ensures forall i: nat, j: nat :: i < j < |IMPORT_SOURCES_DATA| ==>
      CycleColor(PIE_COLORS, i) != CycleColor(PIE_COLORS, j)
  {
    PalettesDistinct();
    forall i: nat, j: nat | i < j < |OXIDES| ensures CycleColor(LINE_COLORS, i) != CycleColor(LINE_COLORS, j) {
      CycleSameColor(LINE_COLORS, i, j);
    }
    forall i: nat, j: nat | i < j < |IMPORT_SOURCES_DATA| ensures CycleColor(PIE_COLORS, i) != CycleColor(PIE_COLORS, j) {
      CycleSameColor(PIE_COLORS, i, j);
    }
  }

  /** `r` is the piece of `name` starting at `lo`, and no `(` comes before
      its end. */
  ghost predicate PieceBeforeParen(r: string, name: string, lo: int)
  {
    0 <= lo && lo + |r| <= |name| && r == name[lo..lo + |r|] && '(' !in name[..lo + |r|]
  }

  /** `name.split('(')[0].trim()`: the legend label of a production series.
      It has no `(` and no white at either end, and it is a piece of `name`
      standing before any `(`. */
  function LegendName(name: string): (r: string)
    ensures '(' !in r
    ensures r == [] || (!IsWhite(r[0]) && !IsWhite(r[|r| - 1]))
    ensures exists lo :: PieceBeforeParen(r, name, lo)
    ensures TrimmedOf(r, BeforeFirst(name, '('))
  {
    var head := BeforeFirst(name, '(');
    var r := Trim(head);
    TrimIsTrimmed(head);
    TrimOfPrefixIsPiece(name, head, r);
    r
  }

  /** A trim of the part before the first `(` is a piece of the name with no
      `(` before its end. */
  lemma TrimOfPrefixIsPiece(name: string, head: string, r: string)
    requires |head| <= |name| && head == name[..|head|] && '(' !in head
    requires TrimmedOf(r, head)
    ensures exists lo :: PieceBeforeParen(r, name, lo)
  {
    var lo :| TrimmedAt(r, head, lo);
    assert name[..lo + |r|] == head[..lo + |r|];
    assert name[lo..lo + |r|] == head[lo..lo + |r|];
    assert PieceBeforeParen(r, name, lo);
  }

  /** A name without `(` is only trimmed. */
  lemma LegendNameNoParen(name: string)
    requires '(' !in name
    ensures LegendName(name) == Trim(name)
  {
    assert BeforeFirst(name, '(') == name;
  }

  /** A label followed by a parenthesised unit: the legend is the label. */
  lemma LegendNameOfLabel(text: string, unit: string)
    requires text != [] && !IsWhite(text[0]) && !IsWhite(text[|text| - 1])
    requires '(' !in text
    ensures LegendName(text + " (" + unit + ")") == text
  {
    var name := text + " (" + unit + ")";
    assert name == (text + " ") + ['('] + (unit + ")");
    BeforeFirstAt(text + " ", '(', unit + ")");
    assert IsBlank(" ");
    TrimPadded([], text, " ");
    assert [] + text + " " == text + " ";
  }

  /** The legend of the mineral-concentrates chart: its name without the unit. */
  lemma MineralConcentratesLegend(name: string)
    requires name == SALIENT_PRODUCTION_MINERAL_CONCENTRATES.name
    ensures LegendName(name) == "Mineral Concentrates Production"
  {
    assert name == "Mineral Concentrates Production" + " (" + "tons REO" + ")";
    LegendNameOfLabel("Mineral Concentrates Production", "tons REO");
  }

  /** The legend of the compounds-and-metals chart: its name without the unit. */
  lemma CompoundsMetalsLegend(name: string)
    requires name == SALIENT_PRODUCTION_COMPOUNDS_METALS.name
    ensures LegendName(name) == "Compounds and Metals Production"
  {
    assert name == "Compounds and Metals Production" + " (" + "tons REO" + ")";
    LegendNameOfLabel("Compounds and Metals Production", "tons REO");
  }
}
