/**
 * The city layout: a square grid of equal buildings separated by
 * streets, with the 3 x 3 block of cells round the centre left empty
 * for the player's spawn. Only the heights are random; they are inputs,
 * one draw in [0, 1) per building, in the order the buildings are made.
 */
module World {
  import opened Types
  import opened Collision

  /** Cells per side: the city size over one building plus one street. */
  function GridSize(): (n: nat)
    ensures n == 10
  {
    CITY_SIZE / (BUILDING_SIZE + STREET_WIDTH)
  }

  /** Half the grid's width, subtracted so that the grid is centred on the origin. */
  function Offset(): (o: real)
    ensures o == 50.0
  {
    (GridSize() * (BUILDING_SIZE + STREET_WIDTH)) as real / 2.0
  }

  /** How many buildings the grid holds once the centre block is skipped. */
  const BUILDING_COUNT: nat := 91

  datatype Cell = Cell(x: nat, z: nat)

  /**
   * The centre test of the generator, on the cell's indices in a grid
   * `n` cells wide: both indices strictly within 2 of n / 2. Doubling
   * both sides keeps it in integers.
   */
  predicate Skipped(n: nat, x: int, z: int)
  {
    n - 4 < 2 * x < n + 4 && n - 4 < 2 * z < n + 4
  }

  /** The generator's own form of the test, with n / 2 a real number. */
  predicate CentreTest(n: nat, x: int, z: int)
  {
    var half := n as real / 2.0;
    x as real > half - 2.0 && x as real < half + 2.0 && z as real > half - 2.0 && z as real < half + 2.0
  }

  lemma SkippedIsCentreTest(n: nat, x: int, z: int)
    ensures Skipped(n, x, z) <==> CentreTest(n, x, z)
  {
  }

  /** With a 10 x 10 grid the skipped cells are those with both indices in 4..6. */
  lemma SkippedCells(x: int, z: int)
    ensures Skipped(GridSize(), x, z) <==> 4 <= x <= 6 && 4 <= z <= 6
  {
  }

  /** The kept cells (x, z') of a grid `n` wide with z' < z, in increasing z'. */
  function RowPrefix(n: nat, x: nat, z: nat): seq<Cell>
  {
    if z == 0 then []
    else RowPrefix(n, x, z - 1) + (if Skipped(n, x, z - 1) then [] else [Cell(x, z - 1)])
  }

  /** The kept cells of the rows before x of a grid `n` wide, row after row. */
  function GridPrefix(n: nat, x: nat): seq<Cell>
  {
    if x == 0 then [] else GridPrefix(n, x - 1) + RowPrefix(n, x - 1, n)
  }

  /** Every kept cell of the grid, in the order the generator visits them. */
  function CityCells(): seq<Cell>
  {
    GridPrefix(GridSize(), GridSize())
  }

  /** Decimal text of a natural number, as a template string prints it. */
  function DecimalString(n: nat): string
  {
    if n < 10 then [('0' as int + n) as char]
    else DecimalString(n / 10) + [('0' as int + n % 10) as char]
  }

  function BuildingId(c: Cell): string
  {
    "b-" + DecimalString(c.x) + "-" + DecimalString(c.z)
  }

  /** The building for a cell, its height taken from a draw in [0, 1). */
  function BuildingAt(c: Cell, draw: real): (b: BuildingData)
    requires 0.0 <= draw < 1.0
    ensures b.position.x == (10 * c.x - 50) as real && b.position.z == (10 * c.z - 50) as real
    ensures b.size.x == 6.0 && b.size.z == 6.0
    ensures 5.0 <= b.size.y < 15.0 && b.position.y == b.size.y / 2.0
    ensures b.id == BuildingId(c)
  {
    var height := draw * 10.0 + 5.0;
    var pitch := BUILDING_SIZE + STREET_WIDTH;
    BuildingData(BuildingId(c),
                 Vec3((c.x * pitch) as real - Offset(), height / 2.0, (c.z * pitch) as real - Offset()),
                 Vec3(BUILDING_SIZE as real, height, BUILDING_SIZE as real))
  }

  predicate ValidDraws(draws: seq<real>)
  {
    forall i :: 0 <= i < |draws| ==> 0.0 <= draws[i] < 1.0
  }

  // ---------------------------------------------------------------------
  // Counting the cells.

  /** How many cells of row x come before column z. */
  function RowKept(x: int, z: nat): nat
  {
    if 4 <= x <= 6 then (if z <= 4 then z else if z <= 7 then 4 else z - 3) else z
  }

  lemma {:induction false} RowPrefixLength(n: nat, x: nat, z: nat)
    requires n == GridSize()
    ensures |RowPrefix(n, x, z)| == RowKept(x, z)
  {
    if z > 0 {
      RowPrefixLength(n, x, z - 1);
      SkippedCells(x, z - 1);
    }
  }

  /** How many cells the rows before x hold. */
  function GridKept(x: nat): nat
  {
    if x <= 4 then 10 * x else if x <= 7 then 40 + 7 * (x - 4) else 10 * x - 9
  }

  lemma {:induction false} GridPrefixLength(n: nat, x: nat)
    requires n == GridSize()
    ensures |GridPrefix(n, x)| == GridKept(x)
  {
    if x > 0 {
      GridPrefixLength(n, x - 1);
      GridLengthStep(n, x);
    }
  }

  /** One more row: the count of the rows before x - 1 plus the cells kept in row x - 1. */
  lemma GridLengthStep(n: nat, x: nat)
    requires n == GridSize() && x > 0
    requires |GridPrefix(n, x - 1)| == GridKept(x - 1)
    ensures |GridPrefix(n, x)| == GridKept(x)
  {
    GridPrefixSnoc(n, x);
    RowPrefixLength(n, x - 1, n);
    GridKeptStep(x);
  }

  lemma GridPrefixSnoc(n: nat, x: nat)
    requires x > 0
    ensures |GridPrefix(n, x)| == |GridPrefix(n, x - 1)| + |RowPrefix(n, x - 1, n)|
  {
  }

  lemma GridKeptStep(x: nat)
    requires x > 0
    ensures GridKept(x) == GridKept(x - 1) + RowKept(x - 1, 10)
  {
  }

  /** The generator makes exactly 10 * 10 - 3 * 3 = 91 buildings. */
  lemma CityCellCount()
    ensures |CityCells()| == BUILDING_COUNT
  {
    GridPrefixLength(GridSize(), GridSize());
  }

  // ---------------------------------------------------------------------
  // Which cells, and in which order.

  lemma {:induction false} RowPrefixMembers(n: nat, x: nat, z: nat)
    ensures forall c :: c in RowPrefix(n, x, z) <==> c.x == x && c.z < z && !Skipped(n, c.x, c.z)
  {
    if z > 0 {
      RowPrefixMembers(n, x, z - 1);
    }
  }

  lemma {:induction false} GridPrefixMembers(n: nat, x: nat)
    ensures forall c :: c in GridPrefix(n, x) <==> c.x < x && c.z < n && !Skipped(n, c.x, c.z)
  {
    if x > 0 {
      GridPrefixMembers(n, x - 1);
      GridMembersStep(n, x);
    }
  }

  lemma GridMembersStep(n: nat, x: nat)
    requires x > 0
    requires forall c :: c in GridPrefix(n, x - 1) <==> c.x < x - 1 && c.z < n && !Skipped(n, c.x, c.z)
    ensures forall c :: c in GridPrefix(n, x) <==> c.x < x && c.z < n && !Skipped(n, c.x, c.z)
  {
    RowPrefixMembers(n, x - 1, n);
    var a, r := GridPrefix(n, x - 1), RowPrefix(n, x - 1, n);
    assert GridPrefix(n, x) == a + r;
    forall c: Cell
      ensures c in a + r <==> c.x < x && c.z < n && !Skipped(n, c.x, c.z)
    {
      assert c in a + r <==> c in a || c in r;
    }
  }

  /** A cell holds a building exactly when it is on the grid and outside the centre block. */
  lemma CityCellMembers(c: Cell)
    ensures c in CityCells() <==> c.x < 10 && c.z < 10 && !(4 <= c.x <= 6 && 4 <= c.z <= 6)
  {
    GridPrefixMembers(GridSize(), GridSize());
    SkippedCells(c.x, c.z);
  }

  /** x-major order: a lower x first, and within one x a lower z first. */
  predicate Before(c: Cell, d: Cell)
  {
    c.x < d.x || (c.x == d.x && c.z < d.z)
  }

  predicate Ordered(cells: seq<Cell>)
  {
    forall i, j :: 0 <= i < j < |cells| ==> Before(cells[i], cells[j])
  }

  lemma {:induction false} RowPrefixOrdered(n: nat, x: nat, z: nat)
    ensures Ordered(RowPrefix(n, x, z))
  {
    if z > 0 {
      RowPrefixOrdered(n, x, z - 1);
      RowPrefixMembers(n, x, z - 1);
      var row := RowPrefix(n, x, z);
      var prev := RowPrefix(n, x, z - 1);
      forall i, j | 0 <= i < j < |row|
        ensures Before(row[i], row[j])
      {
        if j >= |prev| {
          assert row[i] == prev[i] && row[i] in prev;
        }
      }
    }
  }

  lemma {:induction false} GridPrefixOrdered(n: nat, x: nat)
    ensures Ordered(GridPrefix(n, x))
  {
    if x > 0 {
      GridPrefixOrdered(n, x - 1);
      GridPrefixMembers(n, x - 1);
      RowPrefixOrdered(n, x - 1, n);
      RowPrefixMembers(n, x - 1, n);
      var a := GridPrefix(n, x - 1);
      var b := RowPrefix(n, x - 1, n);
      forall i, j | 0 <= i < j < |a + b|
        ensures Before((a + b)[i], (a + b)[j])
      {
        if i < |a| && j >= |a| {
          assert (a + b)[i] == a[i] && a[i] in a;
          assert (a + b)[j] == b[j - |a|] && b[j - |a|] in b;
        }
      }
    }
  }

  /** The cells of the whole grid: counted, on the grid, in x-major order. */
  lemma CityCellFacts()
    ensures |CityCells()| == BUILDING_COUNT
    ensures forall c :: c in CityCells() ==> c.x < 10 && c.z < 10 && !(4 <= c.x <= 6 && 4 <= c.z <= 6)
    ensures Ordered(CityCells())
  {
    CityCellCount();
    GridPrefixOrdered(GridSize(), GridSize());
    forall c | c in CityCells()
      ensures c.x < 10 && c.z < 10 && !(4 <= c.x <= 6 && 4 <= c.z <= 6)
    {
      CityCellMembers(c);
    }
  }

  /** Of two cells of the grid, the earlier one comes first in x-major order. */
  lemma CityCellsBefore(i: nat, j: nat)
    requires i < j < BUILDING_COUNT
    ensures j < |CityCells()| && Before(CityCells()[i], CityCells()[j])
  {
    CityCellFacts();
  }

  /** Row x as far as column z + 1: the cell (x, z) is added unless it is skipped. */
  lemma RowPrefixSnoc(n: nat, x: nat, z: nat)
    ensures RowPrefix(n, x, z + 1) == RowPrefix(n, x, z) + (if Skipped(n, x, z) then [] else [Cell(x, z)])
  {
  }

  lemma GridPrefixNext(n: nat, x: nat)
    ensures GridPrefix(n, x + 1) == GridPrefix(n, x) + RowPrefix(n, x, n)
  {
  }

  /** The i-th kept cell of row x before column z stays the i-th one before any later column. */
  lemma {:induction false} RowPrefixGrows(n: nat, x: nat, z: nat, z': nat, i: nat)
    requires z <= z' && i < |RowPrefix(n, x, z)|
    ensures i < |RowPrefix(n, x, z')| && RowPrefix(n, x, z')[i] == RowPrefix(n, x, z)[i]
    decreases z' - z
  {
    if z < z' {
      RowPrefixGrows(n, x, z, z' - 1, i);
      RowPrefixSnoc(n, x, z' - 1);
    }
  }

  /** The i-th kept cell of the rows before x stays the i-th one of the rows before any later x'. */
  lemma {:induction false} GridPrefixGrows(n: nat, x: nat, x': nat, i: nat)
    requires x <= x' && i < |GridPrefix(n, x)|
    ensures i < |GridPrefix(n, x')| && GridPrefix(n, x')[i] == GridPrefix(n, x)[i]
    decreases x' - x
  {
    if x < x' {
      GridPrefixGrows(n, x, x' - 1, i);
      GridPrefixNext(n, x' - 1);
    }
  }

  /** A kept cell (x, z) of row x sits in the whole row after the kept cells before it. */
  lemma RowCellAt(n: nat, x: nat, z: nat)
    requires z < n && !Skipped(n, x, z)
    ensures |RowPrefix(n, x, z)| < |RowPrefix(n, x, n)|
    ensures RowPrefix(n, x, n)[|RowPrefix(n, x, z)|] == Cell(x, z)
  {
    RowPrefixSnoc(n, x, z);
    RowPrefixGrows(n, x, z + 1, n, |RowPrefix(n, x, z)|);
  }

  /** Row x follows the rows before it. */
  lemma GridCellAt(n: nat, x: nat, i: nat)
    requires i < |RowPrefix(n, x, n)|
    ensures |GridPrefix(n, x)| + i < |GridPrefix(n, x + 1)|
    ensures GridPrefix(n, x + 1)[|GridPrefix(n, x)| + i] == RowPrefix(n, x, n)[i]
  {
    GridPrefixNext(n, x);
  }

  /** The rows before x + 1 are the start of the whole grid. */
  lemma WholeGridAt(n: nat, x: nat, k: nat)
    requires x < n && k < |GridPrefix(n, x + 1)|
    ensures k < |GridPrefix(n, n)| && GridPrefix(n, n)[k] == GridPrefix(n, x + 1)[k]
  {
    GridPrefixGrows(n, x + 1, n, k);
  }

  /** A kept cell (x, z) sits in the whole grid at index k, after the kept cells visited before it. */
  lemma GridCellIndex(n: nat, x: nat, z: nat, k: nat)
    requires x < n && z < n && !Skipped(n, x, z)
    requires k == |GridPrefix(n, x)| + |RowPrefix(n, x, z)|
    ensures k < |GridPrefix(n, n)| && GridPrefix(n, n)[k] == Cell(x, z)
  {
    var i := |RowPrefix(n, x, z)|;
    RowCellAt(n, x, z);
    GridCellAt(n, x, i);
    WholeGridAt(n, x, k);
  }

  /**
   * The kept cell (x, z) sits in the list of all kept cells at index k,
   * the count of the kept cells visited before it.
   */
  lemma CityCellIndex(x: nat, z: nat, k: nat)
    requires x < 10 && z < 10 && !(4 <= x <= 6 && 4 <= z <= 6)
    requires k == GridKept(x) + RowKept(x, z)
    ensures k < |CityCells()| && CityCells()[k] == Cell(x, z)
  {
    SkippedCells(x, z);
    GridPrefixLength(GridSize(), x);
    RowPrefixLength(GridSize(), x, z);
    GridCellIndex(GridSize(), x, z, k);
  }

  // ---------------------------------------------------------------------
  // The layout and what it promises.

  /**
   * The k-th kept cell in visiting order, by counting: 4 full rows of 10,
   * then 3 rows of 7 (columns 4..6 skipped), then 3 full rows of 10.
   */
  function CellAt(k: nat): (c: Cell)
    requires k < BUILDING_COUNT
    ensures c.x < 10 && c.z < 10 && !(4 <= c.x <= 6 && 4 <= c.z <= 6)
    ensures GridKept(c.x) + RowKept(c.x, c.z) == k
  {
    if k < 40 then Cell(k / 10, k % 10)
    else if k < 61 then
      var row, i := (k - 40) / 7, (k - 40) % 7;
      Cell(4 + row, if i < 4 then i else i + 3)
    else Cell(7 + (k - 61) / 10, (k - 61) % 10)
  }

  /** Each kept cell is counted: the cell (x, z) is the one at its own index. */
  lemma CellAtIndex(x: nat, z: nat)
    requires x < 10 && z < 10 && !(4 <= x <= 6 && 4 <= z <= 6)
    ensures GridKept(x) + RowKept(x, z) < BUILDING_COUNT
    ensures CellAt(GridKept(x) + RowKept(x, z)) == Cell(x, z)
  {
  }

  /** Counting agrees with the visit: the k-th kept cell is the k-th cell the loops reach. */
  lemma CellAtIsVisitOrder(k: nat)
    requires k < BUILDING_COUNT
    ensures k < |CityCells()| && CityCells()[k] == CellAt(k)
  {
    var c := CellAt(k);
    CityCellIndex(c.x, c.z, k);
  }

  /** The generated building list: the k-th building on the k-th kept cell, with the k-th height draw. */
  function Layout(draws: seq<real>): (b: seq<BuildingData>)
    requires |draws| == BUILDING_COUNT && ValidDraws(draws)
    ensures |b| == BUILDING_COUNT
  {
    seq(BUILDING_COUNT, k requires 0 <= k < BUILDING_COUNT => BuildingAt(CellAt(k), draws[k]))
  }

  /** The k-th building stands on the k-th cell the generator's loops visit. */
  lemma LayoutAt(draws: seq<real>, k: nat)
    requires |draws| == BUILDING_COUNT && ValidDraws(draws)
    requires k < BUILDING_COUNT
    ensures k < |CityCells()| && Layout(draws)[k] == BuildingAt(CityCells()[k], draws[k])
  {
    CellAtIsVisitOrder(k);
  }

  lemma SingleDigit(n: nat)
    requires n < 10
    ensures DecimalString(n) == [('0' as int + n) as char]
  {
  }

  /** Two different cells of the grid get different building ids. */
  lemma BuildingIdsDiffer(c: Cell, d: Cell)
    requires c.x < 10 && c.z < 10 && d.x < 10 && d.z < 10
    requires c != d
    ensures BuildingId(c) != BuildingId(d)
  {
    SingleDigit(c.x);
    SingleDigit(c.z);
    SingleDigit(d.x);
    SingleDigit(d.z);
    var i, j := BuildingId(c), BuildingId(d);
    assert i == ['b', '-', ('0' as int + c.x) as char, '-', ('0' as int + c.z) as char];
    assert j == ['b', '-', ('0' as int + d.x) as char, '-', ('0' as int + d.z) as char];
    if c.x != d.x {
      assert i[2] != j[2];
    } else {
      assert i[4] != j[4];
    }
  }

  /** Building ids are pairwise distinct. */
  lemma LayoutIdsDistinct(draws: seq<real>)
    requires |draws| == BUILDING_COUNT && ValidDraws(draws)
    ensures var b := Layout(draws);
      forall i, j :: 0 <= i < j < |b| ==> b[i].id != b[j].id
  {
    var b := Layout(draws);
    forall i, j | 0 <= i < j < |b|
      ensures b[i].id != b[j].id
    {
      BuildingIdsDiffer(CellAt(i), CellAt(j));
    }
  }

  /** Of two kept cells, the one counted first comes first in x-major order. */
  lemma CellAtBefore(i: nat, j: nat)
    requires i < j < BUILDING_COUNT
    ensures Before(CellAt(i), CellAt(j))
  {
    CityCellsBefore(i, j);
    CellAtIsVisitOrder(i);
    CellAtIsVisitOrder(j);
  }

  /** Buildings come x-major, then z. */
  lemma LayoutOrder(draws: seq<real>)
    requires |draws| == BUILDING_COUNT && ValidDraws(draws)
    ensures var b := Layout(draws);
      forall i, j :: 0 <= i < j < |b| ==>
        b[i].position.x < b[j].position.x || (b[i].position.x == b[j].position.x && b[i].position.z < b[j].position.z)
  {
    var b := Layout(draws);
    forall i, j | 0 <= i < j < |b|
      ensures b[i].position.x < b[j].position.x || (b[i].position.x == b[j].position.x && b[i].position.z < b[j].position.z)
    {
      CellAtBefore(i, j);
    }
  }

  /**
   * The centre is left free: no building's footprint, grown by the body
   * radius, comes within 5 of the origin on either axis, so the player's
   * spawn point and the NPCs' central exclusion box are clear.
   */
  lemma LayoutCentreIsFree(draws: seq<real>, p: Vec3)
    requires |draws| == BUILDING_COUNT && ValidDraws(draws)
    requires Abs(p.x) < 5.0 && Abs(p.z) < 5.0
    ensures !HitsBuilding(p, Layout(draws))
  {
    var b := Layout(draws);
    forall k | 0 <= k < |b|
      ensures !InsideFootprint(p, b[k])
    {
      var c := CellAt(k);
      assert b[k] == BuildingAt(c, draws[k]);
    }
  }

  // ---------------------------------------------------------------------
  // The generator.

  /** The building of cell (x, z), written out as the generator builds it. */
  lemma BuildingAtCell(x: nat, z: nat, draw: real)
    requires 0.0 <= draw < 1.0
    ensures BuildingAt(Cell(x, z), draw)
         == BuildingData("b-" + DecimalString(x) + "-" + DecimalString(z),
                         Vec3((x * 10) as real - 50.0, (draw * 10.0 + 5.0) / 2.0, (z * 10) as real - 50.0),
                         Vec3(6.0, draw * 10.0 + 5.0, 6.0))
  {
  }

  /** Counting one more cell of row x stays within the whole grid's count. */
  lemma CountStep(x: nat, z: nat)
    requires x < 10 && z < 10
    ensures RowKept(x, z + 1) == RowKept(x, z) + (if 4 <= x <= 6 && 4 <= z <= 6 then 0 else 1)
    ensures GridKept(x) + RowKept(x, z + 1) <= BUILDING_COUNT
    ensures GridKept(x) + RowKept(x, 10) == GridKept(x + 1)
  {
  }

  /** One visit of the inner loop: the count of kept cells, and whether (x, z) is skipped. */
  lemma VisitStep(x: nat, z: nat, gridSize: int)
    requires gridSize == 10 && x < 10 && z < 10
    ensures CentreTest(gridSize, x, z) <==> 4 <= x <= 6 && 4 <= z <= 6
    ensures RowKept(x, z + 1) == RowKept(x, z) + (if CentreTest(gridSize, x, z) then 0 else 1)
    ensures GridKept(x) + RowKept(x, z + 1) <= BUILDING_COUNT
    ensures GridKept(x) + RowKept(x, 10) == GridKept(x + 1)
  {
    SkippedIsCentreTest(gridSize, x, z);
    SkippedCells(x, z);
    CountStep(x, z);
  }

  /**
   * One visit of the inner loop, for a kept cell: the building the
   * generator makes, with its own arithmetic, is the layout's next building.
   */
  lemma PushStep(draws: seq<real>, b: seq<BuildingData>, x: nat, z: nat, offset: real,
                 height: real, building: BuildingData)
    requires |draws| == BUILDING_COUNT && ValidDraws(draws)
    requires offset == 50.0 && x < 10 && z < 10 && !(4 <= x <= 6 && 4 <= z <= 6)
    requires |b| == GridKept(x) + RowKept(x, z) && b == Layout(draws)[..|b|]
    requires |b| < |draws| && height == draws[|b|] * 10.0 + 5.0
    requires building == BuildingData("b-" + DecimalString(x) + "-" + DecimalString(z),
                                      Vec3((x * (BUILDING_SIZE + STREET_WIDTH)) as real - offset, height / 2.0,
                                           (z * (BUILDING_SIZE + STREET_WIDTH)) as real - offset),
                                      Vec3(BUILDING_SIZE as real, height, BUILDING_SIZE as real))
    ensures b + [building] == Layout(draws)[..|b| + 1]
  {
    var k := |b|;
    CellAtIndex(x, z);
    BuildingAtCell(x, z, draws[k]);
    assert Layout(draws)[k] == building;
  }

  /** The generator: nested loops over the grid, pushing one building per kept cell. */
  method GenerateBuildings(draws: seq<real>) returns (b: seq<BuildingData>)
    requires |draws| == BUILDING_COUNT && ValidDraws(draws)
    ensures b == Layout(draws)
  {
    var gridSize := CITY_SIZE / (BUILDING_SIZE + STREET_WIDTH);
    var offset := (gridSize * (BUILDING_SIZE + STREET_WIDTH)) as real / 2.0;
    assert gridSize == 10 && offset == 50.0;
    b := [];
    for x := 0 to gridSize
      invariant |b| == GridKept(x) && b == Layout(draws)[..|b|]
    {
      for z := 0 to gridSize
        invariant |b| == GridKept(x) + RowKept(x, z) <= BUILDING_COUNT && b == Layout(draws)[..|b|]
      {
        VisitStep(x, z, gridSize);
        if !CentreTest(gridSize, x, z) {
          var height := draws[|b|] * 10.0 + 5.0;
          var xPos := (x * (BUILDING_SIZE + STREET_WIDTH)) as real - offset;
          var zPos := (z * (BUILDING_SIZE + STREET_WIDTH)) as real - offset;
          var building := BuildingData("b-" + DecimalString(x) + "-" + DecimalString(z),
                                       Vec3(xPos, height / 2.0, zPos),
                                       Vec3(BUILDING_SIZE as real, height, BUILDING_SIZE as real));
          PushStep(draws, b, x, z, offset, height, building);
          b := b + [building];
        }
      }
    }
  }
}
