/** The mall / city comparison page (src/pages/ComparisonPage.tsx): the
    pivot table that has one row per brand found in any compared location
    and one cell per location, its columns, and the page handlers. */
module Comparison {
  import opened Js
  import opened Text

  datatype Brand = Brand(id: string, name: string, category: string, code: string)

  /** One brand's figures at one location. */
  datatype BrandData = BrandData(brand: Brand, storeCount: int, averageScore: string)

  datatype Location = Location(id: string, name: string)

  /** One compared location and the brands found there. */
  datatype Result = Result(location: Location, brands: seq<BrandData>)

  // ---------------------------------------------------------------------
  // The brand union: a JS `Map` keyed by brand id

  /** The ids of a brand list, position by position. */
  function Ids(xs: seq<Brand>): (ids: seq<string>)
    ensures |ids| == |xs|
    ensures forall i :: 0 <= i < |xs| ==> ids[i] == xs[i].id
  {
    seq(|xs|, i requires 0 <= i < |xs| => xs[i].id)
  }

  lemma IdsSnoc(xs: seq<Brand>, b: Brand)
    ensures Ids(xs + [b]) == Ids(xs) + [b.id]
  {
  }

  /** Every brand the results mention, location by location and, within a
      location, in list order: the order of the two nested `forEach`. */
  function Flatten(results: seq<Result>): (xs: seq<Brand>)
  {
    if |results| == 0 then []
    else BrandsOf(results[0]) + Flatten(results[1..])
  }

  function BrandsOf(r: Result): (xs: seq<Brand>)
    ensures |xs| == |r.brands|
    ensures forall i :: 0 <= i < |xs| ==> xs[i] == r.brands[i].brand
  {
    seq(|r.brands|, i requires 0 <= i < |r.brands| => r.brands[i].brand)
  }

  /** The id appears somewhere among the brands of some result. */
  predicate Mentioned(results: seq<Result>, id: string) {
    exists j, p :: 0 <= j < |results| && 0 <= p < |results[j].brands| && results[j].brands[p].brand.id == id
  }

  /** The flattened list mentions exactly the ids the results mention. */
  lemma {:induction false} FlattenMentions(results: seq<Result>, id: string)
    ensures id in Ids(Flatten(results)) <==> Mentioned(results, id)
    decreases |results|
  {
    if |results| > 0 {
      FlattenMentions(results[1..], id);
      var head := BrandsOf(results[0]);
      var tail := Flatten(results[1..]);
      assert Ids(head + tail) == Ids(head) + Ids(tail);
      if id in Ids(head) {
        var p :| 0 <= p < |head| && Ids(head)[p] == id;
        assert results[0].brands[p].brand.id == id;
      } else if id in Ids(tail) {
        var j, p :| 0 <= j < |results[1..]| && 0 <= p < |results[1..][j].brands| && results[1..][j].brands[p].brand.id == id;
        assert results[j + 1].brands[p].brand.id == id;
      }
      if Mentioned(results, id) {
        var j, p :| 0 <= j < |results| && 0 <= p < |results[j].brands| && results[j].brands[p].brand.id == id;
        if j == 0 {
          assert Ids(head)[p] == id;
        } else {
          assert results[1..][j - 1].brands[p].brand.id == id;
        }
      }
    }
  }

  /** Insertion-ordered keys and their values, as a JS `Map` holds them. */
  datatype BrandMap = BrandMap(keys: seq<string>, values: map<string, Brand>)

  const EmptyMap: BrandMap := BrandMap([], map[])

  /** No key is listed twice and the listed keys are exactly the mapped ones. */
  ghost predicate ValidMap(m: BrandMap) {
    && (forall i, j :: 0 <= i < j < |m.keys| ==> m.keys[i] != m.keys[j])
    && (forall k :: k in m.values <==> k in m.keys)
  }

  /** `map.set(k, v)`: a new key goes to the end, an existing key keeps its
      place; the value is replaced in both cases. */
  function MapSet(m: BrandMap, k: string, v: Brand): (r: BrandMap)
    requires ValidMap(m)
    ensures ValidMap(r)
    ensures k in r.values && r.values[k] == v
    ensures forall k' :: k' != k ==> (k' in r.values <==> k' in m.values)
    ensures forall k' :: k' != k && k' in m.values ==> r.values[k'] == m.values[k']
    ensures k in m.values ==> r.keys == m.keys
    ensures k !in m.values ==> r.keys == m.keys + [k]
  {
    BrandMap(if k in m.values then m.keys else m.keys + [k], m.values[k := v])
  }

  /** The map the page fills: `allBrands.set(brand._id, brand)` for each
      brand in order. */
  function Collect(xs: seq<Brand>): (m: BrandMap)
    ensures ValidMap(m)
    ensures forall k :: k in m.values <==> k in Ids(xs)
    ensures forall k :: k in m.values ==> m.values[k].id == k
    decreases |xs|
  {
    if |xs| == 0 then EmptyMap
    else
      var pre := xs[..|xs| - 1];
      var b := xs[|xs| - 1];
      assert xs == pre + [b];
      IdsSnoc(pre, b);
      MapSet(Collect(pre), b.id, b)
  }

  /** The map's values in key order: `Array.from(allBrands.values())`. */
  function Values(m: BrandMap): (vs: seq<Brand>)
    requires ValidMap(m)
    ensures |vs| == |m.keys|
  {
    seq(|m.keys|, i requires 0 <= i < |m.keys| => m.values[m.keys[i]])
  }

  /** The position of the last occurrence of `k`. */
  function LastIndex(ids: seq<string>, k: string): (p: nat)
    requires k in ids
    ensures p < |ids| && ids[p] == k
    ensures forall q :: p < q < |ids| ==> ids[q] != k
  {
    if ids[|ids| - 1] == k then |ids| - 1 else LastIndex(ids[..|ids| - 1], k)
  }

  /** Each key is bound to the LAST brand carrying that id: a later
      `set` overwrites an earlier one. */
  lemma {:induction false} CollectKeepsLast(xs: seq<Brand>, k: string)
    requires k in Ids(xs)
    ensures k in Collect(xs).values
    ensures Collect(xs).values[k] == xs[LastIndex(Ids(xs), k)]
    decreases |xs|
  {
    var n := |xs| - 1;
    var pre := xs[..n];
    var b := xs[n];
    assert xs == pre + [b];
    IdsSnoc(pre, b);
    var m := Collect(pre);
    assert Collect(xs) == MapSet(m, b.id, b);
    if b.id != k {
      assert Ids(xs)[..n] == Ids(pre);
      assert k in Ids(pre);
      CollectKeepsLast(pre, k);
      assert LastIndex(Ids(xs), k) == LastIndex(Ids(pre), k);
    }
  }

  /** The position of the first occurrence of `k`, or the length when
      there is none (`findIndex` with the length for -1). */
  function FirstIndex(ids: seq<string>, k: string): (p: nat)
    ensures p <= |ids|
    ensures p < |ids| <==> k in ids
    ensures p < |ids| ==> ids[p] == k
    ensures forall q :: 0 <= q < p ==> ids[q] != k
  {
    if |ids| == 0 then 0
    else if ids[0] == k then 0
    else 1 + FirstIndex(ids[1..], k)
  }

  lemma {:induction false} FirstIndexSnoc(ids: seq<string>, x: string, k: string)
    ensures k in ids ==> FirstIndex(ids + [x], k) == FirstIndex(ids, k)
    ensures k !in ids && k == x ==> FirstIndex(ids + [x], k) == |ids|
  {
    var p := FirstIndex(ids + [x], k);
    if k in ids {
      var q := FirstIndex(ids, k);
      assert (ids + [x])[q] == k;
      assert !(q < p);
      assert ids[p] == k;
    } else if k == x {
      assert (ids + [x])[|ids|] == k;
    }
  }

  /** Keys are listed in the order their ids first appear. */
  lemma {:induction false} CollectFirstAppearanceOrder(xs: seq<Brand>)
    ensures forall i, j :: 0 <= i < j < |Collect(xs).keys| ==>
      FirstIndex(Ids(xs), Collect(xs).keys[i]) < FirstIndex(Ids(xs), Collect(xs).keys[j])
    decreases |xs|
  {
    if |xs| > 0 {
      var pre := xs[..|xs| - 1];
      var b := xs[|xs| - 1];
      assert xs == pre + [b];
      IdsSnoc(pre, b);
      CollectFirstAppearanceOrder(pre);
      var m := Collect(pre);
      var keys := Collect(xs).keys;
      forall i, j | 0 <= i < j < |keys|
        ensures FirstIndex(Ids(xs), keys[i]) < FirstIndex(Ids(xs), keys[j])
      {
        assert keys[i] in m.values;
        FirstIndexSnoc(Ids(pre), b.id, keys[i]);
        FirstIndexSnoc(Ids(pre), b.id, keys[j]);
        if j == |m.keys| {
          assert keys[j] == b.id && b.id !in Ids(pre);
          assert FirstIndex(Ids(pre), keys[i]) < |Ids(pre)|;
        } else {
          assert keys[j] == m.keys[j] && keys[i] == m.keys[i];
        }
      }
    }
  }

  /** The brand union of a comparison. */
  function AllBrands(results: seq<Result>): (m: BrandMap)
    ensures ValidMap(m)
  {
    Collect(Flatten(results))
  }

  // ---------------------------------------------------------------------
  // Rows

  /** A location cell: the brand's figures there. */
  datatype Cell = Cell(storeCount: int, averageScore: string)

  /** The cell of a location where the brand has no entry. */
  const NoData: Cell := Cell(0, "0")

  /** `result.brands.find(b => b.brand._id === id)`. */
  function FindBrand(entries: seq<BrandData>, id: string): (r: Option<BrandData>)
    ensures r.None? <==> forall p :: 0 <= p < |entries| ==> entries[p].brand.id != id
    ensures r.Some? ==> exists p :: 0 <= p < |entries| && entries[p] == r.value && entries[p].brand.id == id
                                    && forall q :: 0 <= q < p ==> entries[q].brand.id != id
  {
    if |entries| == 0 then None
    else if entries[0].brand.id == id then Some(entries[0])
    else
      var r := FindBrand(entries[1..], id);
      assert r.Some? ==> exists p :: 1 <= p < |entries| && entries[p] == r.value && entries[p].brand.id == id
                                     && forall q :: 0 <= q < p ==> entries[q].brand.id != id by {
        if r.Some? {
          var p :| 0 <= p < |entries[1..]| && entries[1..][p] == r.value && entries[1..][p].brand.id == id
                   && forall q :: 0 <= q < p ==> entries[1..][q].brand.id != id;
          assert entries[p + 1] == r.value;
          assert forall q :: 0 <= q < p + 1 ==> entries[q].brand.id != id by {
            forall q | 0 <= q < p + 1
              ensures entries[q].brand.id != id
            {
              if q > 0 {
                assert entries[q] == entries[1..][q - 1];
              }
            }
          }
        }
      }
      r
  }

  function CellFor(r: Result, id: string): Cell {
    match FindBrand(r.brands, id)
    case Some(d) => Cell(d.storeCount, d.averageScore)
    case None => NoData
  }

  /** The key a location's cell and column share: `location_${index}`. */
  function LocationKey(i: nat): string {
    "location_" + NatToDecimal(i)
  }

  lemma LocationKeyInjective(i: nat, j: nat)
    ensures LocationKey(i) == LocationKey(j) ==> i == j
  {
    if LocationKey(i) == LocationKey(j) {
      assert NatToDecimal(i) == LocationKey(i)[9..];
      assert NatToDecimal(j) == LocationKey(j)[9..];
      NatToDecimalInjective(i, j);
    }
  }

  /** The cells of one brand, one per result, in result order. */
  function CellsOf(results: seq<Result>, id: string): (cs: seq<Cell>)
    ensures |cs| == |results|
    ensures forall j :: 0 <= j < |results| ==> cs[j] == CellFor(results[j], id)
  {
    seq(|results|, j requires 0 <= j < |results| => CellFor(results[j], id))
  }

  /** The `location_j` fields of a row: cell j under the key `location_j`,
      one field per cell. */
  function LocationCells(cs: seq<Cell>): (cells: map<string, Cell>)
    ensures |cells| == |cs|
    ensures forall j :: 0 <= j < |cs| ==> LocationKey(j) in cells && cells[LocationKey(j)] == cs[j]
    decreases |cs|, 0
  {
    if |cs| == 0 then map[]
    else
      var n := |cs| - 1;
      var prev := LocationCells(cs[..n]);
      var key := LocationKey(n);
      assert key !in prev by {
        forall j | 0 <= j < n
          ensures LocationKey(j) != key
        {
          LocationKeyInjective(j, n);
        }
        if key in prev {
          LocationCellsOnlyLocations(cs[..n], key);
        }
      }
      var cells := prev[key := cs[n]];
      assert forall j :: 0 <= j < |cs| ==> LocationKey(j) in cells && cells[LocationKey(j)] == cs[j] by {
        forall j | 0 <= j < |cs|
          ensures LocationKey(j) in cells && cells[LocationKey(j)] == cs[j]
        {
          if j < n {
            LocationKeyInjective(j, n);
            assert prev[LocationKey(j)] == cs[..n][j];
          }
        }
      }
      cells
  }

  /** A row has no field besides its `location_j` ones. */
  lemma {:induction false} LocationCellsOnlyLocations(cs: seq<Cell>, k: string)
    requires k in LocationCells(cs)
    ensures exists j :: 0 <= j < |cs| && k == LocationKey(j)
    decreases |cs|, 1
  {
    var n := |cs| - 1;
    if k != LocationKey(n) {
      LocationCellsOnlyLocations(cs[..n], k);
    }
  }

  /** A table row: the brand's key and labels and one cell per location. */
  datatype Row = Row(key: string, brandName: string, category: string, code: string, cells: map<string, Cell>)

  function RowFor(results: seq<Result>, b: Brand): Row {
    Row(b.id, b.name, b.category, b.code, LocationCells(CellsOf(results, b.id)))
  }

  /** `buildTableData`. */
  function BuildTableData(results: seq<Result>): seq<Row> {
    if |results| == 0 then []
    else
      var brands := Values(AllBrands(results));
      seq(|brands|, i requires 0 <= i < |brands| => RowFor(results, brands[i]))
  }

  /** One row per key of the brand map; none without results. */
  lemma TableSize(results: seq<Result>)
    ensures |BuildTableData(results)| == |AllBrands(results).keys|
    ensures |results| == 0 ==> BuildTableData(results) == []
  {
  }

  /** Row i is built from the brand the map binds to its i-th key. */
  lemma RowAt(results: seq<Result>, i: nat)
    requires |results| > 0 && i < |AllBrands(results).keys|
    ensures |results| > 0
    ensures AllBrands(results).keys[i] in AllBrands(results).values
    ensures BuildTableData(results)[i] == RowFor(results, AllBrands(results).values[AllBrands(results).keys[i]])
    ensures BuildTableData(results)[i].key == AllBrands(results).keys[i]
  {
  }

  /** There is one row per brand id mentioned by any result, no id twice,
      ordered by the id's first appearance (results in order, brands in
      list order). */
  lemma TableRows(results: seq<Result>)
    ensures var rows := BuildTableData(results);
      && (forall i, j :: 0 <= i < j < |rows| ==> rows[i].key != rows[j].key)
      && (forall i :: 0 <= i < |rows| ==> Mentioned(results, rows[i].key))
      && (forall i, j :: 0 <= i < j < |rows| ==>
            FirstIndex(Ids(Flatten(results)), rows[i].key) < FirstIndex(Ids(Flatten(results)), rows[j].key))
  {
    var rows := BuildTableData(results);
    var m := AllBrands(results);
    CollectFirstAppearanceOrder(Flatten(results));
    forall i | 0 <= i < |rows|
      ensures rows[i].key == m.keys[i]
      ensures Mentioned(results, rows[i].key)
    {
      RowAt(results, i);
      FlattenMentions(results, m.keys[i]);
    }
  }

  /** Every mentioned id has its row. */
  lemma EveryMentionedBrandHasRow(results: seq<Result>, id: string)
    requires Mentioned(results, id)
    ensures exists i :: 0 <= i < |BuildTableData(results)| && BuildTableData(results)[i].key == id
  {
    FlattenMentions(results, id);
    var m := AllBrands(results);
    assert id in m.keys;
    var i :| 0 <= i < |m.keys| && m.keys[i] == id;
    assert BuildTableData(results)[i].key == id;
  }

  /** A row's name, category and code come from the last entry with its id
      in the flattened results. */
  lemma RowLabelsFromLastEntry(results: seq<Result>, i: nat)
    requires |results| > 0 && i < |AllBrands(results).keys|
    ensures BuildTableData(results)[i].key in Ids(Flatten(results))
    ensures var b := Flatten(results)[LastIndex(Ids(Flatten(results)), BuildTableData(results)[i].key)];
      && b.id == BuildTableData(results)[i].key
      && b.name == BuildTableData(results)[i].brandName
      && b.category == BuildTableData(results)[i].category
      && b.code == BuildTableData(results)[i].code
  {
    var m := AllBrands(results);
    var xs := Flatten(results);
    var k := m.keys[i];
    RowAt(results, i);
    CollectKeepsLast(xs, k);
  }

  /** Every row has exactly one `location_j` field per result; the field of
      result j holds the figures of the first entry with the row's brand
      id in that result, or (0, '0') when the result has none. */
  lemma RowCells(results: seq<Result>, i: nat, j: nat)
    requires i < |AllBrands(results).keys| && j < |results|
    ensures var row := BuildTableData(results)[i];
      && |row.cells| == |results|
      && LocationKey(j) in row.cells
      && ((forall p :: 0 <= p < |results[j].brands| ==> results[j].brands[p].brand.id != row.key) ==>
            row.cells[LocationKey(j)] == NoData)
      && (forall p :: (0 <= p < |results[j].brands| && results[j].brands[p].brand.id == row.key
                       && (forall q :: 0 <= q < p ==> results[j].brands[q].brand.id != row.key)) ==>
            row.cells[LocationKey(j)] == Cell(results[j].brands[p].storeCount, results[j].brands[p].averageScore))
  {
    var m := AllBrands(results);
    assert m.keys[i] in m.values;
    var row := BuildTableData(results)[i];
    assert row.key == m.keys[i];
    var found := FindBrand(results[j].brands, row.key);
    if found.Some? {
      var p0 :| 0 <= p0 < |results[j].brands| && results[j].brands[p0] == found.value
                && results[j].brands[p0].brand.id == row.key
                && forall q :: 0 <= q < p0 ==> results[j].brands[q].brand.id != row.key;
      forall p | 0 <= p < |results[j].brands| && results[j].brands[p].brand.id == row.key
                 && (forall q :: 0 <= q < p ==> results[j].brands[q].brand.id != row.key)
        ensures p == p0
      {
      }
    }
  }

  // ---------------------------------------------------------------------
  // Columns and cell display

  datatype Column = Column(title: string, key: string)

  /** `buildTableColumns`: brand name and code, then one column per result
      in result order, titled with the location's name. */
  function BuildTableColumns(results: seq<Result>): (cols: seq<Column>)
    ensures |cols| == 2 + |results|
    ensures cols[0].key == "brandName" && cols[1].key == "code"
    ensures forall c :: 2 <= c < |cols| ==> cols[c] == Column(results[c - 2].location.name, LocationKey(c - 2))
  {
    [Column("品牌名称", "brandName"), Column("品牌代号", "code")]
    + seq(|results|, i requires 0 <= i < |results| => Column(results[i].location.name, LocationKey(i)))
  }

  /** Column keys are pairwise distinct. */
  lemma ColumnKeysDistinct(results: seq<Result>)
    ensures var cols := BuildTableColumns(results);
      forall a, b :: 0 <= a < b < |cols| ==> cols[a].key != cols[b].key
  {
    var cols := BuildTableColumns(results);
    forall a, b | 0 <= a < b < |cols|
      ensures cols[a].key != cols[b].key
    {
      if a >= 2 {
        LocationKeyInjective(a - 2, b - 2);
      } else {
        assert cols[b].key[0] == 'l' || cols[b].key == "code";
      }
    }
  }

  /** The column of result j reads the cell every row holds for result j. */
  lemma ColumnsMatchCells(results: seq<Result>, c: nat, r: nat)
    requires 2 <= c < |BuildTableColumns(results)| && r < |AllBrands(results).keys|
    ensures BuildTableColumns(results)[c].key == LocationKey(c - 2)
    ensures BuildTableColumns(results)[c].key in BuildTableData(results)[r].cells
  {
    var j: nat := c - 2;
    RowCells(results, r, j);
    assert LocationKey(j) in BuildTableData(results)[r].cells;
  }

  /** What a location cell shows. */
  datatype CellView = NoStores | Stores(count: int, averageScore: string)

  /** A cell with no stores reads '暂无门店'; any other shows its figures. */
  function CellDisplay(c: Cell): (v: CellView)
    ensures v.NoStores? <==> c.storeCount == 0
    ensures v.Stores? ==> v.count == c.storeCount && v.averageScore == c.averageScore
  {
    if c.storeCount == 0 then NoStores else Stores(c.storeCount, c.averageScore)
  }

  /** A brand absent from a location shows as having no stores there. */
  lemma AbsentBrandShowsNoStores(results: seq<Result>, i: nat, j: nat)
    requires i < |AllBrands(results).keys| && j < |results|
    requires forall p :: 0 <= p < |results[j].brands| ==>
               results[j].brands[p].brand.id != BuildTableData(results)[i].key
    ensures CellDisplay(BuildTableData(results)[i].cells[LocationKey(j)]) == NoStores
  {
    RowCells(results, i, j);
  }

  // ---------------------------------------------------------------------
  // Page handlers

  datatype CompareType = MallType | CityType

  datatype PageState = PageState(
    kind: CompareType,
    selectedIds: seq<string>,
    selectedBrandIds: seq<string>,
    results: seq<Result>)

  datatype CompareRequest = CompareRequest(kind: CompareType, ids: seq<string>, brandIds: Option<seq<string>>)

  /** What the compare endpoint answered: results with `success`, or its
      message (perhaps absent) without. */
  datatype Reply = Succeeded(results: seq<Result>) | Refused(message: Option<string>)

  datatype Notice = Warning(text: string) | Success(text: string) | Error(text: string)

  function KindWord(kind: CompareType): string {
    match kind
    case MallType => "商场"
    case CityType => "城市"
  }

  /** The request `handleCompare` sends, if any: none with fewer than two
      locations; the brand filter only when some brand is selected. */
  function CompareRequestFor(s: PageState): (req: Option<CompareRequest>)
    ensures req.None? <==> |s.selectedIds| < 2
    ensures req.Some? ==> req.value.kind == s.kind && req.value.ids == s.selectedIds
    ensures req.Some? ==> (req.value.brandIds.None? <==> |s.selectedBrandIds| == 0)
    ensures req.Some? && req.value.brandIds.Some? ==> req.value.brandIds.value == s.selectedBrandIds
  {
    if |s.selectedIds| < 2 then None
    else Some(CompareRequest(s.kind, s.selectedIds,
                             if |s.selectedBrandIds| > 0 then Some(s.selectedBrandIds) else None))
  }

  /** `handleCompare` once settled: too few locations only warn; a
      successful reply replaces the results; a refusal or a failed request
      keeps them and reports an error. */
  function HandleCompare(s: PageState, outcome: Outcome<Reply>): (r: (PageState, Notice))
    ensures |s.selectedIds| < 2 ==> r.0 == s && r.1 == Warning("请至少选择2个" + KindWord(s.kind) + "进行对比")
    ensures |s.selectedIds| >= 2 && outcome.Ok? && outcome.value.Succeeded? ==>
      r.0 == s.(results := outcome.value.results) && r.1 == Success("对比完成")
    ensures |s.selectedIds| >= 2 && outcome.Ok? && outcome.value.Refused? ==>
      r.0 == s && r.1 == Error(if Truthy(outcome.value.message) then outcome.value.message.value else "对比失败")
    ensures |s.selectedIds| >= 2 && outcome.Failed? ==> r.0 == s && r.1 == Error("对比失败")
    ensures r.0.kind == s.kind && r.0.selectedIds == s.selectedIds && r.0.selectedBrandIds == s.selectedBrandIds
  {
    if |s.selectedIds| < 2 then (s, Warning("请至少选择2个" + KindWord(s.kind) + "进行对比"))
    else match outcome
      case Ok(Succeeded(rs)) => (s.(results := rs), Success("对比完成"))
      case Ok(Refused(msg)) => (s, Error(if Truthy(msg) then msg.value else "对比失败"))
      case Failed => (s, Error("对比失败"))
  }

  /** `handleReset`: selections and results cleared, the type kept. */
  function HandleReset(s: PageState): (r: PageState)
    ensures r.kind == s.kind
    ensures r.selectedIds == [] && r.selectedBrandIds == [] && r.results == []
    ensures BuildTableData(r.results) == [] && |BuildTableColumns(r.results)| == 2
  {
    PageState(s.kind, [], [], [])
  }

  /** `handleTypeChange`: the type switches, location selection and results
      are cleared, the brand selection stays. */
  function HandleTypeChange(s: PageState, kind: CompareType): (r: PageState)
    ensures r.kind == kind
    ensures r.selectedIds == [] && r.results == []
    ensures r.selectedBrandIds == s.selectedBrandIds
  {
    PageState(kind, [], s.selectedBrandIds, [])
  }

  /** After a type change or a reset nothing can be compared until two new
      locations are chosen. */
  lemma ClearedPageCannotCompare(s: PageState, kind: CompareType)
    ensures CompareRequestFor(HandleTypeChange(s, kind)).None?
    ensures CompareRequestFor(HandleReset(s)).None?
  {
  }
}
