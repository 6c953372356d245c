/** The inventory heatmap: a region-by-SKU grid of stock coverage (in
    weeks), each cell coloured by its stored risk label. */
module InventoryHeatmap {
  import opened Collections

  datatype HeatmapPoint = HeatmapPoint(region: string, sku: string, coverage: real, risk: string)

  /** The points the heatmap draws, region by region. */
  function MockData(): seq<HeatmapPoint>
  {
    [ HeatmapPoint("North", "SKU-001", 2.1, "high"),
      HeatmapPoint("North", "SKU-002", 4.5, "medium"),
      HeatmapPoint("North", "SKU-003", 6.2, "low"),
      HeatmapPoint("South", "SKU-001", 3.8, "medium"),
      HeatmapPoint("South", "SKU-002", 1.9, "high"),
      HeatmapPoint("South", "SKU-003", 5.1, "low"),
      HeatmapPoint("East", "SKU-001", 4.2, "medium"),
      HeatmapPoint("East", "SKU-002", 6.8, "low"),
      HeatmapPoint("East", "SKU-003", 2.3, "high"),
      HeatmapPoint("West", "SKU-001", 5.5, "low"),
      HeatmapPoint("West", "SKU-002", 3.1, "medium"),
      HeatmapPoint("West", "SKU-003", 1.7, "high") ]
  }

  /** `data.map(key)`: one label per point. */
  function Column(data: seq<HeatmapPoint>, key: HeatmapPoint -> string): (col: seq<string>)
    ensures |col| == |data|
    ensures forall i :: 0 <= i < |data| ==> col[i] == key(data[i])
  {
    if data == [] then [] else [key(data[0])] + Column(data[1..], key)
  }

  function RegionOf(p: HeatmapPoint): string { p.region }

  function SkuOf(p: HeatmapPoint): string { p.sku }

  /** The grid's labels along one axis: `Array.from(new Set(data.map(key)))`. */
  function Labels(data: seq<HeatmapPoint>, key: HeatmapPoint -> string): seq<string>
  {
    Distinct(Column(data, key))
  }

  /** The row labels: every region of the data, once each. */
  function Regions(data: seq<HeatmapPoint>): (rows: seq<string>)
    ensures NoDuplicates(rows)
    ensures forall p <- data :: p.region in rows
    ensures forall l <- rows :: exists p <- data :: p.region == l
  {
    LabelsAreDistinctAndComplete(data, RegionOf);
    Labels(data, RegionOf)
  }

  /** The column labels: every SKU of the data, once each. */
  function Skus(data: seq<HeatmapPoint>): (columns: seq<string>)
    ensures NoDuplicates(columns)
    ensures forall p <- data :: p.sku in columns
    ensures forall l <- columns :: exists p <- data :: p.sku == l
  {
    LabelsAreDistinctAndComplete(data, SkuOf);
    Labels(data, SkuOf)
  }

  /** The labels along an axis are the data's keys, each once, in the order
      they first appear. */
  lemma LabelsAreDistinctAndComplete(data: seq<HeatmapPoint>, key: HeatmapPoint -> string)
    ensures NoDuplicates(Labels(data, key))
    ensures forall p <- data :: key(p) in Labels(data, key)
    ensures forall l <- Labels(data, key) :: exists p <- data :: key(p) == l
    ensures forall i, j :: 0 <= i < j < |Labels(data, key)| ==>
              IndexOf(Column(data, key), Labels(data, key)[i]) < IndexOf(Column(data, key), Labels(data, key)[j])
  {
    var col := Column(data, key);
    forall p <- data ensures key(p) in col {
      var i :| 0 <= i < |data| && data[i] == p;
      assert col[i] == key(p);
    }
    forall l <- Labels(data, key) ensures exists p <- data :: key(p) == l {
      var i := IndexOf(col, l);
      assert key(data[i]) == l;
    }
    DistinctFirstOccurrenceOrder(col);
  }

  function SampleRegionColumn(): seq<string>
  {
    ["North", "North", "North", "South", "South", "South", "East", "East", "East", "West", "West", "West"]
  }

  function SampleSkuColumn(): seq<string>
  {
    ["SKU-001", "SKU-002", "SKU-003", "SKU-001", "SKU-002", "SKU-003",
     "SKU-001", "SKU-002", "SKU-003", "SKU-001", "SKU-002", "SKU-003"]
  }

  lemma SampleRegionKeys()
    ensures forall i :: 0 <= i < 12 ==> MockData()[i].region == SampleRegionColumn()[i]
  {
  }

  lemma SampleSkuKeys()
    ensures forall i :: 0 <= i < 12 ==> MockData()[i].sku == SampleSkuColumn()[i]
  {
  }

  /** A column is determined by its labels position by position. */
  lemma ColumnIs(data: seq<HeatmapPoint>, key: HeatmapPoint -> string, labels: seq<string>)
    requires |labels| == |data|
    requires forall i :: 0 <= i < |data| ==> key(data[i]) == labels[i]
    ensures Column(data, key) == labels
  {
  }

  lemma SampleRegionColumnIs()
    ensures Column(MockData(), RegionOf) == SampleRegionColumn()
  {
    SampleRegionKeys();
    ColumnIs(MockData(), RegionOf, SampleRegionColumn());
  }

  lemma SampleSkuColumnIs()
    ensures Column(MockData(), SkuOf) == SampleSkuColumn()
  {
    SampleSkuKeys();
    ColumnIs(MockData(), SkuOf, SampleSkuColumn());
  }

  /** Three points per region, regions in turn: the row labels are the
      regions in that order. */
  lemma LabelsOfRuns(n: string, s: string, e: string, w: string)
    requires n != s && n != e && n != w && s != e && s != w && e != w
    ensures Distinct([n, n, n, s, s, s, e, e, e, w, w, w]) == [n, s, e, w]
  {
    var col := [n, n, n, s, s, s, e, e, e, w, w, w];
    IndexOfAt(col, n, 0);
    IndexOfAt(col, s, 3);
    IndexOfAt(col, e, 6);
    IndexOfAt(col, w, 9);
    DistinctCharacterized(col, [n, s, e, w]);
  }

  /** The same three SKUs in every region: the column labels are the SKUs
      in the order of the first region. */
  lemma LabelsOfCycle(a: string, b: string, c: string)
    requires a != b && a != c && b != c
    ensures Distinct([a, b, c, a, b, c, a, b, c, a, b, c]) == [a, b, c]
  {
    var col := [a, b, c, a, b, c, a, b, c, a, b, c];
    IndexOfAt(col, a, 0);
    IndexOfAt(col, b, 1);
    IndexOfAt(col, c, 2);
    DistinctCharacterized(col, [a, b, c]);
  }

  /** The labels the sample grid shows. */
  lemma SampleLabels()
    ensures Regions(MockData()) == ["North", "South", "East", "West"]
    ensures Skus(MockData()) == ["SKU-001", "SKU-002", "SKU-003"]
  {
    SampleRegionColumnIs();
    SampleSkuColumnIs();
    LabelsOfRuns("North", "South", "East", "West");
    LabelsOfCycle("SKU-001", "SKU-002", "SKU-003");
  }

  predicate Matches(p: HeatmapPoint, region: string, sku: string)
  {
    p.region == region && p.sku == sku
  }

  /** A cell's lookup with `find`: the first point with the cell's region and
      SKU, or nothing when no point matches. */
  function FindCell(data: seq<HeatmapPoint>, region: string, sku: string): (r: Option<HeatmapPoint>)
    ensures r.None? <==> forall j :: 0 <= j < |data| ==> !Matches(data[j], region, sku)
    ensures forall k :: 0 <= k < |data| && Matches(data[k], region, sku)
                        && (forall j :: 0 <= j < k ==> !Matches(data[j], region, sku))
                     ==> r == Some(data[k])
  {
    if data == [] then None
    else if Matches(data[0], region, sku) then Some(data[0])
    else
      var rest := FindCell(data[1..], region, sku);
      assert forall j :: 1 <= j < |data| ==> data[j] == data[1..][j - 1];
      rest
  }

  /** Every cell of the sample grid, the region in row `a` and the SKU in
      column `b` of the labels `SampleLabels` gives, finds exactly its own
      point: the data hold one point per pair. */
  lemma SampleCellLookup(a: nat, b: nat)
    requires a < 4 && b < 3
    ensures forall j :: 0 <= j < |MockData()| ==>
              (Matches(MockData()[j], ["North", "South", "East", "West"][a], ["SKU-001", "SKU-002", "SKU-003"][b])
               <==> j == 3 * a + b)
    ensures FindCell(MockData(), ["North", "South", "East", "West"][a], ["SKU-001", "SKU-002", "SKU-003"][b])
            == Some(MockData()[3 * a + b])
  {
    SampleOnePointPerCell(a, b);
    FindOnlyMatch(MockData(), ["North", "South", "East", "West"][a], ["SKU-001", "SKU-002", "SKU-003"][b], 3 * a + b);
  }

  lemma SampleOnePointPerCell(a: nat, b: nat)
    requires a < 4 && b < 3
    ensures forall j :: 0 <= j < |MockData()| ==>
              (Matches(MockData()[j], ["North", "South", "East", "West"][a], ["SKU-001", "SKU-002", "SKU-003"][b])
               <==> j == 3 * a + b)
  {
  }

  /** A point that is the only match is what the lookup finds. */
  lemma FindOnlyMatch(data: seq<HeatmapPoint>, region: string, sku: string, k: nat)
    requires k < |data| && Matches(data[k], region, sku)
    requires forall j :: 0 <= j < |data| && j != k ==> !Matches(data[j], region, sku)
    ensures FindCell(data, region, sku) == Some(data[k])
  {
  }

  datatype CellColor = Destructive | Amber | Green | Muted

  /** `getRiskColor`: a colour per known label, muted for anything else. */
  function GetRiskColor(risk: string): (c: CellColor)
    ensures c == Muted <==> risk !in {"high", "medium", "low"}
  {
    match risk
    case "high" => Destructive
    case "medium" => Amber
    case "low" => Green
    case _ => Muted
  }

  lemma RiskColorCases(risk: string)
    ensures GetRiskColor(risk) == Destructive <==> risk == "high"
    ensures GetRiskColor(risk) == Amber <==> risk == "medium"
    ensures GetRiskColor(risk) == Green <==> risk == "low"
    ensures GetRiskColor(risk) == Muted <==> risk !in {"high", "medium", "low"}
  {
  }

  /** A cell's background and opacity: the point's risk colour at 0.8, or
      muted at 0.3 for a pair without a point. */
  function CellStyle(cell: Option<HeatmapPoint>): (style: (CellColor, real))
    ensures style.1 == 0.8 <==> cell.Some?
    ensures style.0 == Muted <==> cell.None? || cell.value.risk !in {"high", "medium", "low"}
  {
    match cell
    case None => (Muted, 0.3)
    case Some(p) => (GetRiskColor(p.risk), 0.8)
  }

  /** Every cell of the sample grid is drawn in its point's own colour, at
      full cell opacity: none is muted. */
  lemma SampleCellsColoured(a: nat, b: nat)
    requires a < 4 && b < 3
    ensures a < |Regions(MockData())| && b < |Skus(MockData())|
    ensures CellStyle(FindCell(MockData(), Regions(MockData())[a], Skus(MockData())[b]))
            == (GetRiskColor(MockData()[3 * a + b].risk), 0.8)
    ensures CellStyle(FindCell(MockData(), Regions(MockData())[a], Skus(MockData())[b])).0 != Muted
  {
    SampleLabels();
    SampleCellLookup(a, b);
    SampleRiskMatchesLegend();
    assert MockData()[3 * a + b] in MockData();
  }

  /** The legend's reading of coverage: under 3 weeks high risk, 3 to 5
      weeks medium, over 5 weeks low. */
  function LegendRisk(coverage: real): (risk: string)
    ensures risk in {"high", "medium", "low"}
  {
    if coverage < 3.0 then "high"
    else if coverage <= 5.0 then "medium"
    else "low"
  }

  /** The three bands cover every coverage, without overlap; 3 and 5 weeks
      both belong to the middle band. */
  lemma LegendBands(c: real)
    ensures LegendRisk(c) == "high" <==> c < 3.0
    ensures LegendRisk(c) == "medium" <==> 3.0 <= c <= 5.0
    ensures LegendRisk(c) == "low" <==> c > 5.0
  {
  }

  lemma LegendBoundaries()
    ensures LegendRisk(2.99) == "high" && LegendRisk(3.0) == "medium"
    ensures LegendRisk(5.0) == "medium" && LegendRisk(5.01) == "low"
  {
  }

  /** The stored risk labels agree with the legend, and so every point has
      a colour of its own. */
  lemma SampleRiskMatchesLegend()
    ensures forall p <- MockData() :: p.risk == LegendRisk(p.coverage) && GetRiskColor(p.risk) != Muted
  {
  }
}
