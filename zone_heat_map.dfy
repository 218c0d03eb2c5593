/** The zone heat map: pitches are bucketed by location into a 5 x 5 grid
    (the inner 3 x 3 being the strike zone), each cell counting its pitches
    and its hits, and then a hit rate is written into every cell. */
module ZoneHeatMap {
  import opened Common
  import opened HittingTypes

  const GridRows: nat := 5
  const GridCols: nat := 5

  type GridIndex = i: int | 0 <= i < 5

  datatype ZoneCell = ZoneCell(total: nat, hits: nat, hitRate: real)

  // ---------------------------------------------------------------------------
  // Locating a pitch

  /** `Math.max(0, Math.min(4, i))` */
  function ClampIndex(i: int): GridIndex {
    if i < 0 then 0 else if i > 4 then 4 else i
  }

  /** The column of a horizontal coordinate: -1.5 .. 1.5 spread over five
      columns, anything outside clamped to the edge column. */
  function Col(x: real): GridIndex {
    ClampIndex((((x + 1.5) / 3.0) * GridCols as real).Floor)
  }

  /** The row of a vertical coordinate: 1.5 .. -1.5 spread over five rows,
      top row first, anything outside clamped to the edge row. */
  function Row(y: real): GridIndex {
    ClampIndex((((1.5 - y) / 3.0) * GridRows as real).Floor)
  }

  /** The cell of a pitch, numbered row by row. */
  function CellIndex(p: Pitch): nat {
    Row(p.location.y) * GridCols + Col(p.location.x)
  }

  function AnyPitch(p: Pitch): bool { true }

  /** `pitch.outcome === 'in_play_hit'` */
  function IsHitPitch(p: Pitch): bool { p.outcome == InPlayHit }

  /** Pitches satisfying `q` that `cell` places in cell k. */
  function InCellWith(cell: Pitch -> nat, k: nat, q: Pitch -> bool): Pitch -> bool {
    (p: Pitch) => cell(p) == k && q(p)
  }

  /** The number of pitches satisfying `q` that `cell` places in cell k. */
  function CountIn(pitches: seq<Pitch>, cell: Pitch -> nat, k: nat, q: Pitch -> bool): nat {
    |Filter(pitches, InCellWith(cell, k, q))|
  }

  /** The number of pitches satisfying `q` that land in cell k of the grid. */
  function CellCount(pitches: seq<Pitch>, k: nat, q: Pitch -> bool): nat {
    CountIn(pitches, CellIndex, k, q)
  }

  /** `cell.total > 0 ? cell.hits / cell.total : -1` */
  function HitRate(hits: nat, total: nat): real {
    if total > 0 then hits as real / total as real else -1.0
  }

  /** The cell at row r, column c once every pitch is counted and the rates written. */
  function ExpectedCell(pitches: seq<Pitch>, r: nat, c: nat): ZoneCell {
    var k := r * GridCols + c;
    ZoneCell(CellCount(pitches, k, AnyPitch), CellCount(pitches, k, IsHitPitch),
             HitRate(CellCount(pitches, k, IsHitPitch), CellCount(pitches, k, AnyPitch)))
  }

  lemma CellCountSnoc(pitches: seq<Pitch>, p: Pitch, k: nat, q: Pitch -> bool)
    ensures CellCount(pitches + [p], k, q)
            == CellCount(pitches, k, q) + (if CellIndex(p) == k && q(p) then 1 else 0)
  {
    FilterAppend(pitches, [p], InCellWith(CellIndex, k, q));
  }

  // ---------------------------------------------------------------------------
  // zoneData

  /** Cells hold their pitch and hit counts (the hit rates not yet written)
      for `pitches`. */
  ghost predicate Counted(zones: array2<ZoneCell>, pitches: seq<Pitch>)
    reads zones
    requires zones.Length0 == GridRows && zones.Length1 == GridCols
  {
    forall r, c :: 0 <= r < GridRows && 0 <= c < GridCols ==>
      zones[r, c].total == CellCount(pitches, r * GridCols + c, AnyPitch) &&
      zones[r, c].hits == CellCount(pitches, r * GridCols + c, IsHitPitch)
  }

  /** zoneData: count every pitch into its cell, then write each cell's hit rate. */
  method ZoneData(pitches: seq<Pitch>) returns (zones: array2<ZoneCell>)
    ensures fresh(zones)
    ensures zones.Length0 == GridRows && zones.Length1 == GridCols
    ensures forall r, c :: 0 <= r < GridRows && 0 <= c < GridCols ==>
              zones[r, c] == ExpectedCell(pitches, r, c)
  {
    zones := new ZoneCell[GridRows, GridCols]((r, c) => ZoneCell(0, 0, 0.0));
    var i := 0;
    while i < |pitches|
      invariant 0 <= i <= |pitches|
      invariant Counted(zones, pitches[..i])
    {
      assert pitches[..i + 1] == pitches[..i] + [pitches[i]];
      CountPitch(zones, pitches[..i], pitches[i]);
      i := i + 1;
    }
    assert pitches[..i] == pitches;
    WriteHitRates(zones, pitches);
  }

  /** The first pass for one pitch: its cell's total goes up by one, and its
      hits too when the pitch was an 'in_play_hit'. */
  method CountPitch(zones: array2<ZoneCell>, ghost done: seq<Pitch>, pitch: Pitch)
    requires zones.Length0 == GridRows && zones.Length1 == GridCols
    requires Counted(zones, done)
    modifies zones
    ensures Counted(zones, done + [pitch])
  {
    var row, col := Row(pitch.location.y), Col(pitch.location.x);
    var cell := zones[row, col];
    zones[row, col] := cell.(total := cell.total + 1);
    if pitch.outcome == InPlayHit {
      zones[row, col] := zones[row, col].(hits := zones[row, col].hits + 1);
    }
    assert CellIndex(pitch) == row * GridCols + col;
    forall r, c | 0 <= r < GridRows && 0 <= c < GridCols
      ensures zones[r, c].total == CellCount(done + [pitch], r * GridCols + c, AnyPitch)
      ensures zones[r, c].hits == CellCount(done + [pitch], r * GridCols + c, IsHitPitch)
    {
      CellCountSnoc(done, pitch, r * GridCols + c, AnyPitch);
      CellCountSnoc(done, pitch, r * GridCols + c, IsHitPitch);
      CellIndexUnique(r, c, row, col);
    }
  }

  lemma CellIndexUnique(r: nat, c: nat, r': nat, c': nat)
    requires r < GridRows && c < GridCols && r' < GridRows && c' < GridCols
    ensures r * GridCols + c == r' * GridCols + c' <==> r == r' && c == c'
  {
  }

  /** The second pass: `cell.hitRate = cell.total > 0 ? cell.hits / cell.total : -1`. */
  method WriteHitRates(zones: array2<ZoneCell>, ghost pitches: seq<Pitch>)
    requires zones.Length0 == GridRows && zones.Length1 == GridCols
    requires Counted(zones, pitches)
    modifies zones
    ensures forall r, c :: 0 <= r < GridRows && 0 <= c < GridCols ==>
              zones[r, c] == ExpectedCell(pitches, r, c)
  {
    var r := 0;
    while r < GridRows
      invariant 0 <= r <= GridRows
      invariant forall r', c :: 0 <= r' < r && 0 <= c < GridCols ==> zones[r', c] == ExpectedCell(pitches, r', c)
      invariant forall r', c :: r <= r' < GridRows && 0 <= c < GridCols ==> zones[r', c] == old(zones[r', c])
    {
      var c := 0;
      while c < GridCols
        invariant 0 <= c <= GridCols
        invariant forall r', c' :: 0 <= r' < r && 0 <= c' < GridCols ==> zones[r', c'] == ExpectedCell(pitches, r', c')
        invariant forall c' :: 0 <= c' < c ==> zones[r, c'] == ExpectedCell(pitches, r, c')
        invariant forall r', c' :: r <= r' < GridRows && 0 <= c' < GridCols && (r' > r || c' >= c) ==>
                    zones[r', c'] == old(zones[r', c'])
      {
        var cell := zones[r, c];
        zones[r, c] := cell.(hitRate := HitRate(cell.hits, cell.total));
        c := c + 1;
      }
      r := r + 1;
    }
  }

  // ---------------------------------------------------------------------------
  // What the grid promises

  /** The total over cells 0 .. n-1 of the pitches satisfying `q`, each
      placed in its cell by `cell`. */
  function GridSum(pitches: seq<Pitch>, cell: Pitch -> nat, q: Pitch -> bool, n: nat): nat {
    if n == 0 then 0 else GridSum(pitches, cell, q, n - 1) + CountIn(pitches, cell, n - 1, q)
  }

  lemma {:induction false} GridSumCons(pitches: seq<Pitch>, cell: Pitch -> nat, q: Pitch -> bool, n: nat)
    requires pitches != []
    ensures GridSum(pitches, cell, q, n)
            == GridSum(pitches[1..], cell, q, n) + (if q(pitches[0]) && cell(pitches[0]) < n then 1 else 0)
  {
    if n > 0 {
      GridSumCons(pitches, cell, q, n - 1);
      assert Filter(pitches, InCellWith(cell, n - 1, q))
             == (if InCellWith(cell, n - 1, q)(pitches[0]) then [pitches[0]] else [])
                + Filter(pitches[1..], InCellWith(cell, n - 1, q));
    }
  }

  lemma {:induction false} GridSumEmpty(cell: Pitch -> nat, q: Pitch -> bool, n: nat)
    ensures GridSum([], cell, q, n) == 0
  {
    if n > 0 {
      GridSumEmpty(cell, q, n - 1);
    }
  }

  /** When every pitch lands in one of the first n cells, the counts of
      pitches satisfying `q` over those cells add up to their number. */
  lemma {:induction false} GridSumAll(pitches: seq<Pitch>, cell: Pitch -> nat, q: Pitch -> bool, n: nat)
    requires forall p :: cell(p) < n
    ensures GridSum(pitches, cell, q, n) == |Filter(pitches, q)|
  {
    if pitches == [] {
      GridSumEmpty(cell, q, n);
    } else {
      GridSumCons(pitches, cell, q, n);
      GridSumAll(pitches[1..], cell, q, n);
    }
  }

  /** Every pitch lands in one of the 25 cells. */
  lemma CellIndexInGrid(p: Pitch)
    ensures CellIndex(p) < GridRows * GridCols
  {
  }

  /** The cell totals add up to the number of pitches, and the cell hits to
      the number of 'in_play_hit' pitches. */
  lemma GridTotals(pitches: seq<Pitch>)
    ensures GridSum(pitches, CellIndex, AnyPitch, GridRows * GridCols) == |pitches|
    ensures GridSum(pitches, CellIndex, IsHitPitch, GridRows * GridCols) == |Filter(pitches, IsHitPitch)|
  {
    forall p ensures CellIndex(p) < GridRows * GridCols {
      CellIndexInGrid(p);
    }
    GridSumAll(pitches, CellIndex, AnyPitch, GridRows * GridCols);
    GridSumAll(pitches, CellIndex, IsHitPitch, GridRows * GridCols);
    FilterAllOrNone(pitches, AnyPitch);
  }

  /** In every cell the hits never exceed the total, and a cell with data has
      a hit rate in [0, 1]; a cell without data has rate -1. */
  lemma CellBounds(pitches: seq<Pitch>, r: nat, c: nat)
    requires r < GridRows && c < GridCols
    ensures ExpectedCell(pitches, r, c).hits <= ExpectedCell(pitches, r, c).total
    ensures ExpectedCell(pitches, r, c).total > 0 ==> 0.0 <= ExpectedCell(pitches, r, c).hitRate <= 1.0
    ensures ExpectedCell(pitches, r, c).total == 0 ==> ExpectedCell(pitches, r, c).hitRate == -1.0
  {
    var k := r * GridCols + c;
    forall p ensures InCellWith(CellIndex, k, IsHitPitch)(p) ==> InCellWith(CellIndex, k, AnyPitch)(p) {
      assert AnyPitch(p);
    }
    FilterLengthMono(pitches, InCellWith(CellIndex, k, IsHitPitch), InCellWith(CellIndex, k, AnyPitch));
    var cell := ExpectedCell(pitches, r, c);
    if cell.total > 0 {
      UnitFraction(cell.hits as real, cell.total as real);
    }
  }

  /** Columns grow from left to right and rows from top to bottom. */
  lemma GridMonotone(x: real, x': real, y: real, y': real)
    requires x <= x' && y <= y'
    ensures Col(x) <= Col(x')
    ensures Row(y') <= Row(y)
  {
    FloorMonotone(((x + 1.5) / 3.0) * 5.0, ((x' + 1.5) / 3.0) * 5.0);
    FloorMonotone(((1.5 - y') / 3.0) * 5.0, ((1.5 - y) / 3.0) * 5.0);
  }

  lemma FloorMonotone(a: real, b: real)
    requires a <= b
    ensures a.Floor <= b.Floor
  {
    assert a.Floor as real <= a;
    assert b < b.Floor as real + 1.0;
  }

  /** The edge cells: the first column takes every x below -0.9 and the last
      every x from 0.9 up; the top row takes every y above 0.9 and the bottom
      row every y at or below -0.9, however far out. */
  lemma EdgeCells(x: real, y: real)
    ensures Col(x) == 0 <==> x < -0.9
    ensures Col(x) == 4 <==> x >= 0.9
    ensures Row(y) == 0 <==> y > 0.9
    ensures Row(y) == 4 <==> y <= -0.9
  {
    var nx := ((x + 1.5) / 3.0) * 5.0;
    var ny := ((1.5 - y) / 3.0) * 5.0;
    assert nx == (x + 1.5) * 5.0 / 3.0;
    assert ny == (1.5 - y) * 5.0 / 3.0;
    assert nx.Floor as real <= nx < nx.Floor as real + 1.0;
    assert ny.Floor as real <= ny < ny.Floor as real + 1.0;
  }

  // ---------------------------------------------------------------------------
  // getTextColor

  /** getTextColor: muted text on an empty cell, white on the strongly
      coloured cold or hot cells, dark navy on the pale middle tones. */
  function GetTextColor(hitRate: real, total: nat): string {
    if total == 0 then "hsl(var(--muted-foreground))"
    else if hitRate < 0.3 || hitRate > 0.7 then "white"
    else "hsl(222, 47%, 15%)"
  }

  lemma TextColorWhite(hitRate: real, total: nat)
    ensures GetTextColor(hitRate, total) == "white" <==> total > 0 && (hitRate < 0.3 || hitRate > 0.7)
  {
    assert "hsl(var(--muted-foreground))" != "white";
    assert "hsl(222, 47%, 15%)" != "white";
  }
}
