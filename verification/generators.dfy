/** The ten structure generators. Each one is the sequence of loop nests its source
    method runs, in source order, over the dimensions the method computes from the size;
    `Scan.Generate` runs them against the world, recording into a fresh capture map (the
    map `build` hands a generator is always new).

    Every generator states three things about its result `(w, c)` from the world `w0`:
    the block it leaves at each position (`...BlockAt`), the capture entry it leaves at
    each position (`...Record`: which cells are recorded and with what), and the generic
    facts that nothing outside the capture changed and that under `FirstWins` every
    record is the state before the build. The per-position facts are proved once per
    generator for any dimensions that satisfy the few bounds the shape needs. */
module Generators {
  import opened Blocks
  import opened Materials
  import opened Options
  import opened JavaInt
  import opened Grid
  import opened Scan
  import opened BuildSizes
  import opened BuildConfigs

  /** A single cell, as a one-cell box. */
  function Cell(x: int, y: int, z: int): Box
  {
    Box(x, x + 1, y, y + 1, z, z + 1)
  }

  function PaintAll(b: Block): Cells
  {
    (x, y, z) => Paint(b)
  }

  /** On the rim of the `width` x `depth` rectangle with a corner at 0. */
  predicate Rim(x: int, z: int, width: int, depth: int)
  {
    x == 0 || x == width - 1 || z == 0 || z == depth - 1
  }

  /** Walls and floor of a box: paint the rim and the bottom layer, read the hollow inside
      without writing it (the House and Castle shells). */
  function WallsAndFloor(b: Block, width: int, depth: int): Cells
  {
    (x, y, z) => if Rim(x, z, width, depth) || y == 0 then Paint(b) else Read
  }

  /** The record a position captured only once is left with. */
  function Once(covered: bool, before: Block): Option<Block>
  {
    if covered then Some(before) else None
  }

  /** The cell at `(dx, dy, dz)` from the origin. */
  predicate At(o: Pos, p: Pos, dx: int, dy: int, dz: int)
  {
    p == Offset(o, dx, dy, dz)
  }

  // ---------------------------------------------------------------- House

  function HouseSweeps(m: MaterialType, width: int, height: int, depth: int): seq<Sweep>
  {
    [ Sweep(Box(0, width, 0, height, 0, depth), WallsAndFloor(PrimaryBlock(m), width, depth)),
      Sweep(Cell(width / 2, 1, 0), PaintAll(Air)),
      Sweep(Box(-1, width + 1, height, height + 1, -1, depth + 1), PaintAll(SecondaryBlock(m))) ]
  }

  /** The roof layer in the secondary block, the door carved to air, the walls and the
      floor in the primary block, anything else (the hollow inside included) as it was. */
  function HouseBlockAt(o: Pos, m: MaterialType, width: int, height: int, depth: int, p: Pos, before: Block): Block
  {
    if InBox(o, Box(-1, width + 1, height, height + 1, -1, depth + 1), p) then SecondaryBlock(m)
    else if At(o, p, width / 2, 1, 0) then Air
    else if InBox(o, Box(0, width, 0, height, 0, depth), p) && (Rim(p.x - o.x, p.z - o.z, width, depth) || p.y == o.y) then PrimaryBlock(m)
    else before
  }

  /** Every cell of the body box (hollow included) and of the roof layer is recorded. The
      door is read a second time after the wall loop has painted it, so under `LastWins`
      its record is the primary block rather than what stood there before. */
  function HouseRecord(o: Pos, m: MaterialType, width: int, height: int, depth: int, pol: Policy, p: Pos, before: Block): Option<Block>
  {
    if pol == LastWins && At(o, p, width / 2, 1, 0) then Some(PrimaryBlock(m))
    else Once(InBox(o, Box(0, width, 0, height, 0, depth), p) || InBox(o, Box(-1, width + 1, height, height + 1, -1, depth + 1), p), before)
  }

  lemma HouseAt(o: Pos, m: MaterialType, width: int, height: int, depth: int, pol: Policy, p: Pos, b: Block)
    requires width >= 1 && height >= 2 && depth >= 1
    ensures After(HouseSweeps(m, width, height, depth), o, pol, p, CellState(b, None)) ==
      CellState(HouseBlockAt(o, m, width, height, depth, p, b), HouseRecord(o, m, width, height, depth, pol, p, b))
  {
    After3(HouseSweeps(m, width, height, depth), o, pol, p, CellState(b, None));
  }

  function HouseW(s: BuildSize): nat { Scaled(5, s) }
  function HouseH(s: BuildSize): nat { Scaled(4, s) }

  /** The door cell of a House built at `o`. */
  function HouseDoor(o: Pos, s: BuildSize): Pos
  {
    Offset(o, HouseW(s) / 2, 1, 0)
  }

  /** `buildHouseInternal`: a hollow 5 x 4 x 5 (times the scale) box with a floor, a door
      gap at the middle of the front wall and a roof layer one wider on every side. */
  method BuildHouse(w0: World, o: Pos, cfg: BuildConfig, pol: Policy) returns (w: World, c: Capture)
    ensures forall p :: Get(w, p) == HouseBlockAt(o, cfg.material, HouseW(cfg.size), HouseH(cfg.size), HouseW(cfg.size), p, Get(w0, p))
    ensures forall p :: Entry(c, p) == HouseRecord(o, cfg.material, HouseW(cfg.size), HouseH(cfg.size), HouseW(cfg.size), pol, p, Get(w0, p))
    ensures Covers(w0, w, c)
    ensures pol == FirstWins ==> Faithful(w0, c, w)
  {
    var width, height, depth := Scaled(5, cfg.size), Scaled(4, cfg.size), Scaled(5, cfg.size);
    w, c := Generate(o, HouseSweeps(cfg.material, width, height, depth), pol, w0);
    forall p ensures CellState(Get(w, p), Entry(c, p)) ==
      CellState(HouseBlockAt(o, cfg.material, width, height, depth, p, Get(w0, p)), HouseRecord(o, cfg.material, width, height, depth, pol, p, Get(w0, p)))
    {
      HouseAt(o, cfg.material, width, height, depth, pol, p, Get(w0, p));
    }
  }

  // ---------------------------------------------------------------- Tower

  function TowerColumn(s: BuildSize): Box { Box(0, 1, 0, Scaled(10, s), 0, 1) }

  /** A single slab of one block, scanned once: its cells take the block, each recorded
      with what stood there before. */
  function SlabBlockAt(o: Pos, b: Box, fill: Block, p: Pos, before: Block): Block
  {
    if InBox(o, b, p) then fill else before
  }

  lemma SlabAt(o: Pos, b: Box, fill: Block, pol: Policy, p: Pos, before: Block)
    ensures After([Sweep(b, PaintAll(fill))], o, pol, p, CellState(before, None)) ==
      CellState(SlabBlockAt(o, b, fill, p, before), Once(InBox(o, b, p), before))
  {
    After1([Sweep(b, PaintAll(fill))], o, pol, p, CellState(before, None));
  }

  /** `buildTowerInternal`: a primary column of height 10 x scale above the origin. */
  method BuildTower(w0: World, o: Pos, cfg: BuildConfig, pol: Policy) returns (w: World, c: Capture)
    ensures forall p :: Get(w, p) == SlabBlockAt(o, TowerColumn(cfg.size), PrimaryBlock(cfg.material), p, Get(w0, p))
    ensures forall p :: Entry(c, p) == Once(InBox(o, TowerColumn(cfg.size), p), Get(w0, p))
    ensures Covers(w0, w, c)
    ensures pol == FirstWins ==> Faithful(w0, c, w)
  {
    var height := Scaled(10, cfg.size);
    var column := Box(0, 1, 0, height, 0, 1);
    w, c := Generate(o, [Sweep(column, PaintAll(PrimaryBlock(cfg.material)))], pol, w0);
    forall p ensures CellState(Get(w, p), Entry(c, p)) ==
      CellState(SlabBlockAt(o, column, PrimaryBlock(cfg.material), p, Get(w0, p)), Once(InBox(o, column, p), Get(w0, p)))
    {
      SlabAt(o, column, PrimaryBlock(cfg.material), pol, p, Get(w0, p));
    }
  }

  // ---------------------------------------------------------------- Mansion

  /** Wall blocks alternate by the parity of `x + y + z` (never negative here, so Java's
      `%` and Dafny's agree). */
  function Checker(m: MaterialType, n: int): Block
  {
    if n % 2 == 0 then PrimaryBlock(m) else DecorativeBlock(m)
  }

  /** What the wall loop does at a cell of the body: walls in the checker pattern, a
      secondary floor on every fourth layer inside, the rest only read. */
  function MansionAct(m: MaterialType, width: int, depth: int, x: int, y: int, z: int): Act
  {
    if Rim(x, z, width, depth) then Paint(Checker(m, x + z + y))
    else if y % 4 == 0 then Paint(SecondaryBlock(m))
    else Read
  }

  function MansionSweeps(m: MaterialType, width: int, height: int, depth: int): seq<Sweep>
  {
    [ Sweep(Box(0, width, 0, height, 0, depth), (x, y, z) => MansionAct(m, width, depth, x, y, z)),
      Sweep(Box(width / 2, width / 2 + 1, 1, 3, 0, 1), PaintAll(Air)),
      Sweep(Box(-1, width + 1, height, height + 1, -1, depth + 1), PaintAll(DecorativeBlock(m))) ]
  }

  /** The two-high door gap at the middle of the front wall. */
  predicate MansionDoor(o: Pos, width: int, p: Pos)
  {
    p.x - o.x == width / 2 && p.z == o.z && 1 <= p.y - o.y <= 2
  }

  function MansionBlockAt(o: Pos, m: MaterialType, width: int, height: int, depth: int, p: Pos, before: Block): Block
  {
    if InBox(o, Box(-1, width + 1, height, height + 1, -1, depth + 1), p) then DecorativeBlock(m)
    else if MansionDoor(o, width, p) then Air
    else if InBox(o, Box(0, width, 0, height, 0, depth), p) then Effect(MansionAct(m, width, depth, p.x - o.x, p.y - o.y, p.z - o.z), before)
    else before
  }

  /** Body and roof cells are recorded; under `LastWins` the two door cells keep the wall
      block the first loop painted there. */
  function MansionRecord(o: Pos, m: MaterialType, width: int, height: int, depth: int, pol: Policy, p: Pos, before: Block): Option<Block>
  {
    if pol == LastWins && MansionDoor(o, width, p) then Some(Checker(m, width / 2 + (p.y - o.y)))
    else Once(InBox(o, Box(0, width, 0, height, 0, depth), p) || InBox(o, Box(-1, width + 1, height, height + 1, -1, depth + 1), p), before)
  }

  lemma MansionAt(o: Pos, m: MaterialType, width: int, height: int, depth: int, pol: Policy, p: Pos, b: Block)
    requires width >= 1 && height >= 3 && depth >= 1
    ensures After(MansionSweeps(m, width, height, depth), o, pol, p, CellState(b, None)) ==
      CellState(MansionBlockAt(o, m, width, height, depth, p, b), MansionRecord(o, m, width, height, depth, pol, p, b))
  {
    After3(MansionSweeps(m, width, height, depth), o, pol, p, CellState(b, None));
  }

  function MansionW(s: BuildSize): nat { Scaled(12, s) }
  function MansionH(s: BuildSize): nat { Scaled(8, s) }

  /** `buildMansionInternal`: a 12 x 8 x 12 (times the scale) box with checkered walls,
      floors every fourth layer, a two-high door and a decorative roof layer. */
  method BuildMansion(w0: World, o: Pos, cfg: BuildConfig, pol: Policy) returns (w: World, c: Capture)
    ensures forall p :: Get(w, p) == MansionBlockAt(o, cfg.material, MansionW(cfg.size), MansionH(cfg.size), MansionW(cfg.size), p, Get(w0, p))
    ensures forall p :: Entry(c, p) == MansionRecord(o, cfg.material, MansionW(cfg.size), MansionH(cfg.size), MansionW(cfg.size), pol, p, Get(w0, p))
    ensures Covers(w0, w, c)
    ensures pol == FirstWins ==> Faithful(w0, c, w)
  {
    var width, height, depth := Scaled(12, cfg.size), Scaled(8, cfg.size), Scaled(12, cfg.size);
    w, c := Generate(o, MansionSweeps(cfg.material, width, height, depth), pol, w0);
    forall p ensures CellState(Get(w, p), Entry(c, p)) ==
      CellState(MansionBlockAt(o, cfg.material, width, height, depth, p, Get(w0, p)), MansionRecord(o, cfg.material, width, height, depth, pol, p, Get(w0, p)))
    {
      MansionAt(o, cfg.material, width, height, depth, pol, p, Get(w0, p));
    }
  }

  // ---------------------------------------------------------------- Farm

  function FarmSweeps(width: int, depth: int): seq<Sweep>
  {
    [ Sweep(Box(0, width, 0, 1, 0, depth), (x, y, z) => if Rim(x, z, width, depth) then Paint(OakFence) else Skip),
      Sweep(Box(1, width - 1, 0, 1, 1, depth - 1), PaintAll(Farmland)),
      Sweep(Cell(width / 2, 0, depth / 2), PaintAll(Water)) ]
  }

  /** Water at the centre, farmland inside the fence, oak fence on the rim. */
  function FarmBlockAt(o: Pos, width: int, depth: int, p: Pos, before: Block): Block
  {
    if At(o, p, width / 2, 0, depth / 2) then Water
    else if InBox(o, Box(1, width - 1, 0, 1, 1, depth - 1), p) then Farmland
    else if InBox(o, Box(0, width, 0, 1, 0, depth), p) then OakFence
    else before
  }

  /** The whole field is recorded; under `LastWins` the water cell's record is the
      farmland the second loop put there. */
  function FarmRecord(o: Pos, width: int, depth: int, pol: Policy, p: Pos, before: Block): Option<Block>
  {
    if pol == LastWins && At(o, p, width / 2, 0, depth / 2) then Some(Farmland)
    else Once(InBox(o, Box(0, width, 0, 1, 0, depth), p), before)
  }

  lemma FarmAt(o: Pos, width: int, depth: int, pol: Policy, p: Pos, b: Block)
    requires width >= 3 && depth >= 3
    ensures After(FarmSweeps(width, depth), o, pol, p, CellState(b, None)) ==
      CellState(FarmBlockAt(o, width, depth, p, b), FarmRecord(o, width, depth, pol, p, b))
  {
    After3(FarmSweeps(width, depth), o, pol, p, CellState(b, None));
  }

  function FarmW(s: BuildSize): nat { Scaled(8, s) }

  /** `buildFarmInternal`: an 8 x 8 (times the scale) fenced field of farmland with one
      water cell in the middle; the material does not matter. */
  method BuildFarm(w0: World, o: Pos, cfg: BuildConfig, pol: Policy) returns (w: World, c: Capture)
    ensures forall p :: Get(w, p) == FarmBlockAt(o, FarmW(cfg.size), FarmW(cfg.size), p, Get(w0, p))
    ensures forall p :: Entry(c, p) == FarmRecord(o, FarmW(cfg.size), FarmW(cfg.size), pol, p, Get(w0, p))
    ensures Covers(w0, w, c)
    ensures pol == FirstWins ==> Faithful(w0, c, w)
  {
    var width, depth := Scaled(8, cfg.size), Scaled(8, cfg.size);
    w, c := Generate(o, FarmSweeps(width, depth), pol, w0);
    forall p ensures CellState(Get(w, p), Entry(c, p)) ==
      CellState(FarmBlockAt(o, width, depth, p, Get(w0, p)), FarmRecord(o, width, depth, pol, p, Get(w0, p)))
    {
      FarmAt(o, width, depth, pol, p, Get(w0, p));
    }
  }

  // ---------------------------------------------------------------- Castle

  function CastleSweeps(m: MaterialType, width: int, height: int, depth: int, towerHeight: int): seq<Sweep>
  {
    var tower := PaintAll(SecondaryBlock(m));
    [ Sweep(Box(0, width, 0, height, 0, depth), WallsAndFloor(PrimaryBlock(m), width, depth)),
      Sweep(Box(0, 1, 0, towerHeight, 0, 1), tower),
      Sweep(Box(width - 1, width, 0, towerHeight, 0, 1), tower),
      Sweep(Box(0, 1, 0, towerHeight, depth - 1, depth), tower),
      Sweep(Box(width - 1, width, 0, towerHeight, depth - 1, depth), tower),
      Sweep(Box(width / 2, width / 2 + 1, 1, 4, 0, 1), PaintAll(Air)) ]
  }

  /** One of the four corner columns. */
  predicate CastleTower(o: Pos, width: int, depth: int, towerHeight: int, p: Pos)
  {
    var dx, dy, dz := p.x - o.x, p.y - o.y, p.z - o.z;
    (dx == 0 || dx == width - 1) && (dz == 0 || dz == depth - 1) && 0 <= dy < towerHeight
  }

  /** The three-high gate at the middle of the front wall. */
  predicate CastleGate(o: Pos, width: int, p: Pos)
  {
    p.x - o.x == width / 2 && p.z == o.z && 1 <= p.y - o.y <= 3
  }

  function CastleBlockAt(o: Pos, m: MaterialType, width: int, height: int, depth: int, towerHeight: int, p: Pos, before: Block): Block
  {
    if CastleGate(o, width, p) then Air
    else if CastleTower(o, width, depth, towerHeight, p) then SecondaryBlock(m)
    else if InBox(o, Box(0, width, 0, height, 0, depth), p) && (Rim(p.x - o.x, p.z - o.z, width, depth) || p.y == o.y) then PrimaryBlock(m)
    else before
  }

  /** Body and towers are recorded. Under `LastWins` the towers' lower cells and the gate
      cells are read again after the wall loop painted them, so they record the primary
      block; the towers' upper cells record what was there. */
  function CastleRecord(o: Pos, m: MaterialType, width: int, height: int, depth: int, towerHeight: int, pol: Policy, p: Pos, before: Block): Option<Block>
  {
    var body := InBox(o, Box(0, width, 0, height, 0, depth), p);
    if pol == LastWins && body && (CastleTower(o, width, depth, towerHeight, p) || CastleGate(o, width, p)) then Some(PrimaryBlock(m))
    else Once(body || CastleTower(o, width, depth, towerHeight, p), before)
  }

  lemma CastleAt(o: Pos, m: MaterialType, width: int, height: int, depth: int, towerHeight: int, pol: Policy, p: Pos, b: Block)
    requires width >= 3 && depth >= 2 && height >= 4
    ensures After(CastleSweeps(m, width, height, depth, towerHeight), o, pol, p, CellState(b, None)) ==
      CellState(CastleBlockAt(o, m, width, height, depth, towerHeight, p, b), CastleRecord(o, m, width, height, depth, towerHeight, pol, p, b))
  {
    After6(CastleSweeps(m, width, height, depth, towerHeight), o, pol, p, CellState(b, None));
  }

  function CastleW(s: BuildSize): nat { Scaled(20, s) }
  function CastleH(s: BuildSize): nat { Scaled(12, s) }
  function CastleTowerH(s: BuildSize): nat { Scaled(15, s) }

  /** `buildCastleInternal`: 20 x 12 x 20 (times the scale) walls with a floor, four
      secondary corner towers 15 x scale high, and a three-high gate. */
  method BuildCastle(w0: World, o: Pos, cfg: BuildConfig, pol: Policy) returns (w: World, c: Capture)
    ensures forall p :: (Get(w, p) ==
      CastleBlockAt(o, cfg.material, CastleW(cfg.size), CastleH(cfg.size), CastleW(cfg.size), CastleTowerH(cfg.size), p, Get(w0, p)))
    ensures forall p :: (Entry(c, p) ==
      CastleRecord(o, cfg.material, CastleW(cfg.size), CastleH(cfg.size), CastleW(cfg.size), CastleTowerH(cfg.size), pol, p, Get(w0, p)))
    ensures Covers(w0, w, c)
    ensures pol == FirstWins ==> Faithful(w0, c, w)
  {
    var width, height, depth := Scaled(20, cfg.size), Scaled(12, cfg.size), Scaled(20, cfg.size);
    var towerHeight := Scaled(15, cfg.size);
    w, c := Generate(o, CastleSweeps(cfg.material, width, height, depth, towerHeight), pol, w0);
    forall p ensures CellState(Get(w, p), Entry(c, p)) ==
      CellState(CastleBlockAt(o, cfg.material, width, height, depth, towerHeight, p, Get(w0, p)),
                CastleRecord(o, cfg.material, width, height, depth, towerHeight, pol, p, Get(w0, p)))
    {
      CastleAt(o, cfg.material, width, height, depth, towerHeight, pol, p, Get(w0, p));
    }
  }

  // ---------------------------------------------------------------- Bridge

  /** Per deck column: the deck cell at `y = 0`, then the rail cell above it on the edges. */
  function BridgeSweeps(m: MaterialType, length: int, width: int): seq<Sweep>
  {
    [ Sweep(Box(0, length, 0, 2, 0, width),
            (x, y, z) =>
              if y == 0 then Paint(PrimaryBlock(m))
              else if z == 0 || z == width - 1 then Paint(DecorativeBlock(m))
              else Skip) ]
  }

  /** A rail cell: one layer above an edge row of the deck. */
  predicate BridgeRail(o: Pos, length: int, width: int, p: Pos)
  {
    InBox(o, Box(0, length, 1, 2, 0, width), p) && (p.z == o.z || p.z - o.z == width - 1)
  }

  function BridgeBlockAt(o: Pos, m: MaterialType, length: int, width: int, p: Pos, before: Block): Block
  {
    if InBox(o, Box(0, length, 0, 1, 0, width), p) then PrimaryBlock(m)
    else if BridgeRail(o, length, width, p) then DecorativeBlock(m)
    else before
  }

  predicate BridgeCovers(o: Pos, length: int, width: int, p: Pos)
  {
    InBox(o, Box(0, length, 0, 1, 0, width), p) || BridgeRail(o, length, width, p)
  }

  lemma BridgeAt(o: Pos, m: MaterialType, length: int, width: int, pol: Policy, p: Pos, b: Block)
    ensures After(BridgeSweeps(m, length, width), o, pol, p, CellState(b, None)) ==
      CellState(BridgeBlockAt(o, m, length, width, p, b), Once(BridgeCovers(o, length, width, p), b))
  {
    After1(BridgeSweeps(m, length, width), o, pol, p, CellState(b, None));
  }

  function BridgeL(s: BuildSize): nat { Scaled(15, s) }
  function BridgeWd(s: BuildSize): nat { Scaled(3, s) }

  /** `buildBridgeInternal`: a 15 x 3 (times the scale) deck with rails on both edges. */
  method BuildBridge(w0: World, o: Pos, cfg: BuildConfig, pol: Policy) returns (w: World, c: Capture)
    ensures forall p :: Get(w, p) == BridgeBlockAt(o, cfg.material, BridgeL(cfg.size), BridgeWd(cfg.size), p, Get(w0, p))
    ensures forall p :: Entry(c, p) == Once(BridgeCovers(o, BridgeL(cfg.size), BridgeWd(cfg.size), p), Get(w0, p))
    ensures Covers(w0, w, c)
    ensures pol == FirstWins ==> Faithful(w0, c, w)
  {
    var length, width := Scaled(15, cfg.size), Scaled(3, cfg.size);
    w, c := Generate(o, BridgeSweeps(cfg.material, length, width), pol, w0);
    forall p ensures CellState(Get(w, p), Entry(c, p)) ==
      CellState(BridgeBlockAt(o, cfg.material, length, width, p, Get(w0, p)), Once(BridgeCovers(o, length, width, p), Get(w0, p)))
    {
      BridgeAt(o, cfg.material, length, width, pol, p, Get(w0, p));
    }
  }

  // ---------------------------------------------------------------- Fountain

  predicate InDisc(x: int, z: int, r: int)
  {
    x * x + z * z <= r * r
  }

  function FountainSweeps(m: MaterialType, radius: int, height: int): seq<Sweep>
  {
    [ Sweep(Box(-radius, radius + 1, 0, 1, -radius, radius + 1),
            (x, y, z) => if InDisc(x, z, radius) then Paint(PrimaryBlock(m)) else Skip),
      Sweep(Box(0, 1, 0, height + 1, 0, 1),
            (x, y, z) => if y == height then Paint(Water) else Paint(PrimaryBlock(m))) ]
  }

  /** A cell of the round base: in the scanned square and within the radius. */
  predicate FountainBase(o: Pos, radius: int, p: Pos)
  {
    InBox(o, Box(-radius, radius + 1, 0, 1, -radius, radius + 1), p) && InDisc(p.x - o.x, p.z - o.z, radius)
  }

  /** A cell of the centre pillar, `y` in `0..height`. */
  predicate FountainPillar(o: Pos, height: int, p: Pos)
  {
    p.x == o.x && p.z == o.z && 0 <= p.y - o.y <= height
  }

  function FountainBlockAt(o: Pos, m: MaterialType, radius: int, height: int, p: Pos, before: Block): Block
  {
    if FountainPillar(o, height, p) then (if p.y - o.y == height then Water else PrimaryBlock(m))
    else if FountainBase(o, radius, p) then PrimaryBlock(m)
    else before
  }

  /** Base and pillar are recorded; under `LastWins` the origin, read again by the
      pillar loop after the base loop painted it, records the primary block. */
  function FountainRecord(o: Pos, m: MaterialType, radius: int, height: int, pol: Policy, p: Pos, before: Block): Option<Block>
  {
    if pol == LastWins && p == o then Some(PrimaryBlock(m))
    else Once(FountainBase(o, radius, p) || FountainPillar(o, height, p), before)
  }

  lemma FountainAt(o: Pos, m: MaterialType, radius: int, height: int, pol: Policy, p: Pos, b: Block)
    requires radius >= 0 && height >= 1
    ensures After(FountainSweeps(m, radius, height), o, pol, p, CellState(b, None)) ==
      CellState(FountainBlockAt(o, m, radius, height, p, b), FountainRecord(o, m, radius, height, pol, p, b))
  {
    After2(FountainSweeps(m, radius, height), o, pol, p, CellState(b, None));
    assert InDisc(0, 0, radius);
  }

  function FountainR(s: BuildSize): nat { Scaled(3, s) }
  function FountainH(s: BuildSize): nat { Scaled(2, s) }

  /** `buildFountainInternal`: a round base of radius 3 x scale and a pillar 2 x scale
      high topped with water. */
  method BuildFountain(w0: World, o: Pos, cfg: BuildConfig, pol: Policy) returns (w: World, c: Capture)
    ensures forall p :: Get(w, p) == FountainBlockAt(o, cfg.material, FountainR(cfg.size), FountainH(cfg.size), p, Get(w0, p))
    ensures forall p :: Entry(c, p) == FountainRecord(o, cfg.material, FountainR(cfg.size), FountainH(cfg.size), pol, p, Get(w0, p))
    ensures Covers(w0, w, c)
    ensures pol == FirstWins ==> Faithful(w0, c, w)
  {
    var radius, height := Scaled(3, cfg.size), Scaled(2, cfg.size);
    w, c := Generate(o, FountainSweeps(cfg.material, radius, height), pol, w0);
    forall p ensures CellState(Get(w, p), Entry(c, p)) ==
      CellState(FountainBlockAt(o, cfg.material, radius, height, p, Get(w0, p)), FountainRecord(o, cfg.material, radius, height, pol, p, Get(w0, p)))
    {
      FountainAt(o, cfg.material, radius, height, pol, p, Get(w0, p));
    }
  }

  // ---------------------------------------------------------------- Treehouse

  /** The loops of `buildTreehouseInternal` over the house square `lo..hi`. */
  function TreehouseSweeps(m: MaterialType, trunkHeight: int, lo: int, hi: int): seq<Sweep>
  {
    [ Sweep(Box(0, 1, 0, trunkHeight, 0, 1), PaintAll(OakLog)),
      Sweep(Box(lo, hi + 1, trunkHeight, trunkHeight + 1, lo, hi + 1), PaintAll(PrimaryBlock(m))),
      Sweep(Box(lo, hi + 1, trunkHeight + 1, trunkHeight + 3, lo, hi + 1),
            (x, y, z) => if x == lo || x == hi || z == lo || z == hi then Paint(PrimaryBlock(m)) else Read),
      Sweep(Box(-2, 3, trunkHeight + 3, trunkHeight + 5, -2, 3),
            (x, y, z) => if x * x + z * z <= 5 then Paint(OakLeaves) else Skip) ]
  }

  predicate InSquare(dx: int, dz: int, half: int)
  {
    -half <= dx <= half && -half <= dz <= half
  }

  predicate TrunkCell(o: Pos, trunkHeight: int, p: Pos)
  {
    p.x == o.x && p.z == o.z && 0 <= p.y - o.y < trunkHeight
  }

  predicate PlatformCell(o: Pos, trunkHeight: int, half: int, p: Pos)
  {
    p.y - o.y == trunkHeight && InSquare(p.x - o.x, p.z - o.z, half)
  }

  /** The two layers of the little house, inside included (it is read, not written). */
  predicate ShellCell(o: Pos, trunkHeight: int, half: int, p: Pos)
  {
    trunkHeight + 1 <= p.y - o.y <= trunkHeight + 2 && InSquare(p.x - o.x, p.z - o.z, half)
  }

  predicate ShellWall(o: Pos, trunkHeight: int, half: int, p: Pos)
  {
    ShellCell(o, trunkHeight, half, p) && (p.x - o.x == -half || p.x - o.x == half || p.z - o.z == -half || p.z - o.z == half)
  }

  predicate LeafCell(o: Pos, trunkHeight: int, p: Pos)
  {
    var dx, dz := p.x - o.x, p.z - o.z;
    trunkHeight + 3 <= p.y - o.y <= trunkHeight + 4 && -2 <= dx <= 2 && -2 <= dz <= 2 && dx * dx + dz * dz <= 5
  }

  function TreehouseBlockAt(o: Pos, m: MaterialType, trunkHeight: int, half: int, p: Pos, before: Block): Block
  {
    if TrunkCell(o, trunkHeight, p) then OakLog
    else if PlatformCell(o, trunkHeight, half, p) || ShellWall(o, trunkHeight, half, p) then PrimaryBlock(m)
    else if LeafCell(o, trunkHeight, p) then OakLeaves
    else before
  }

  /** The four parts never overlap, so every record is the state before the build. */
  predicate TreehouseCovers(o: Pos, trunkHeight: int, half: int, p: Pos)
  {
    TrunkCell(o, trunkHeight, p) || PlatformCell(o, trunkHeight, half, p) || ShellCell(o, trunkHeight, half, p) || LeafCell(o, trunkHeight, p)
  }

  lemma TreehouseAt(o: Pos, m: MaterialType, trunkHeight: int, half: int, pol: Policy, p: Pos, b: Block)
    ensures After(TreehouseSweeps(m, trunkHeight, -half, half), o, pol, p, CellState(b, None)) ==
      CellState(TreehouseBlockAt(o, m, trunkHeight, half, p, b), Once(TreehouseCovers(o, trunkHeight, half, p), b))
  {
    After4(TreehouseSweeps(m, trunkHeight, -half, half), o, pol, p, CellState(b, None));
  }

  function TrunkH(s: BuildSize): nat { Scaled(8, s) }
  function HalfHouse(s: BuildSize): nat { Scaled(4, s) / 2 }

  /** `-houseSize / 2` in Java is `-(houseSize / 2)`: truncation is symmetric (with
      Euclidean division the two would differ for an odd size), and the house size is
      even anyway. */
  lemma HouseSizeBounds(s: BuildSize)
    ensures Scaled(4, s) % 2 == 0
    ensures JavaDiv(-(Scaled(4, s) as int), 2) == -(HalfHouse(s) as int)
    ensures JavaDiv(Scaled(4, s), 2) == HalfHouse(s)
  {
    JavaDivNegate(Scaled(4, s), 2);
  }

  /** `buildTreehouseInternal`: a log trunk 8 x scale high, a platform on top, a one-ring
      house two layers high and a two-layer leaf cap. */
  method BuildTreehouse(w0: World, o: Pos, cfg: BuildConfig, pol: Policy) returns (w: World, c: Capture)
    ensures forall p :: Get(w, p) == TreehouseBlockAt(o, cfg.material, TrunkH(cfg.size), HalfHouse(cfg.size), p, Get(w0, p))
    ensures forall p :: Entry(c, p) == Once(TreehouseCovers(o, TrunkH(cfg.size), HalfHouse(cfg.size), p), Get(w0, p))
    ensures Covers(w0, w, c)
    ensures pol == FirstWins ==> Faithful(w0, c, w)
  {
    var trunkHeight, houseSize := Scaled(8, cfg.size), Scaled(4, cfg.size);
    var lo, hi := JavaDiv(-(houseSize as int), 2), JavaDiv(houseSize, 2);
    HouseSizeBounds(cfg.size);
    var half := HalfHouse(cfg.size);
    w, c := Generate(o, TreehouseSweeps(cfg.material, trunkHeight, lo, hi), pol, w0);
    forall p ensures CellState(Get(w, p), Entry(c, p)) ==
      CellState(TreehouseBlockAt(o, cfg.material, trunkHeight, half, p, Get(w0, p)), Once(TreehouseCovers(o, trunkHeight, half, p), Get(w0, p)))
    {
      TreehouseAt(o, cfg.material, trunkHeight, half, pol, p, Get(w0, p));
    }
  }

  // ---------------------------------------------------------------- Wall and Road

  function WallSlab(s: BuildSize): Box { Box(0, Scaled(20, s), 0, Scaled(4, s), 0, 1) }
  function RoadSlab(s: BuildSize): Box { Box(0, Scaled(20, s), 0, 1, 0, Scaled(3, s)) }

  /** `buildWallInternal`: `20 x scale` long, `4 x scale` high, one thick. */
  method BuildWall(w0: World, o: Pos, cfg: BuildConfig, pol: Policy) returns (w: World, c: Capture)
    ensures forall p :: Get(w, p) == SlabBlockAt(o, WallSlab(cfg.size), PrimaryBlock(cfg.material), p, Get(w0, p))
    ensures forall p :: Entry(c, p) == Once(InBox(o, WallSlab(cfg.size), p), Get(w0, p))
    ensures Covers(w0, w, c)
    ensures pol == FirstWins ==> Faithful(w0, c, w)
  {
    var length, height := Scaled(20, cfg.size), Scaled(4, cfg.size);
    var slab := Box(0, length, 0, height, 0, 1);
    w, c := Generate(o, [Sweep(slab, PaintAll(PrimaryBlock(cfg.material)))], pol, w0);
    forall p ensures CellState(Get(w, p), Entry(c, p)) ==
      CellState(SlabBlockAt(o, slab, PrimaryBlock(cfg.material), p, Get(w0, p)), Once(InBox(o, slab, p), Get(w0, p)))
    {
      SlabAt(o, slab, PrimaryBlock(cfg.material), pol, p, Get(w0, p));
    }
  }

  /** `buildRoadInternal`: `20 x scale` long, `3 x scale` wide, one layer. */
  method BuildRoad(w0: World, o: Pos, cfg: BuildConfig, pol: Policy) returns (w: World, c: Capture)
    ensures forall p :: Get(w, p) == SlabBlockAt(o, RoadSlab(cfg.size), PrimaryBlock(cfg.material), p, Get(w0, p))
    ensures forall p :: Entry(c, p) == Once(InBox(o, RoadSlab(cfg.size), p), Get(w0, p))
    ensures Covers(w0, w, c)
    ensures pol == FirstWins ==> Faithful(w0, c, w)
  {
    var length, width := Scaled(20, cfg.size), Scaled(3, cfg.size);
    var slab := Box(0, length, 0, 1, 0, width);
    w, c := Generate(o, [Sweep(slab, PaintAll(PrimaryBlock(cfg.material)))], pol, w0);
    forall p ensures CellState(Get(w, p), Entry(c, p)) ==
      CellState(SlabBlockAt(o, slab, PrimaryBlock(cfg.material), p, Get(w0, p)), Once(InBox(o, slab, p), Get(w0, p)))
    {
      SlabAt(o, slab, PrimaryBlock(cfg.material), pol, p, Get(w0, p));
    }
  }
}
