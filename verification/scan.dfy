/** The one loop shape every generator is made of: an axis-aligned box scanned with
    `x` outermost, then `z`, then `y`, reading and possibly painting each cell. */
module Scan {
  import opened Blocks
  import opened Grid
  import opened Options

  /** What the loop body does at one cell: nothing, capture only, or capture then paint. */
  datatype Act = Skip | Read | Paint(b: Block)

  /** Half-open extents `[x0, x1) x [y0, y1) x [z0, z1)` relative to the origin. */
  datatype Box = Box(x0: int, x1: int, y0: int, y1: int, z0: int, z1: int)

  /** The per-cell action, as a function of the relative coordinates `(x, y, z)`. */
  type Cells = (int, int, int) -> Act

  predicate InBox(o: Pos, b: Box, p: Pos)
  {
    && o.x + b.x0 <= p.x < o.x + b.x1
    && o.y + b.y0 <= p.y < o.y + b.y1
    && o.z + b.z0 <= p.z < o.z + b.z1
  }

  function ActAt(o: Pos, cells: Cells, p: Pos): Act
  {
    cells(p.x - o.x, p.y - o.y, p.z - o.z)
  }

  /** The scan records `p`. */
  predicate Touches(o: Pos, b: Box, cells: Cells, p: Pos)
  {
    InBox(o, b, p) && !ActAt(o, cells, p).Skip?
  }

  function Effect(a: Act, before: Block): Block
  {
    if a.Paint? then a.b else before
  }

  /** `p` is in the box and comes before the cursor `(x, z, y)` in loop order. */
  predicate Visited(o: Pos, b: Box, p: Pos, x: int, z: int, y: int)
  {
    var dx, dy, dz := p.x - o.x, p.y - o.y, p.z - o.z;
    InBox(o, b, p) && (dx < x || (dx == x && dz < z) || (dx == x && dz == z && dy < y))
  }

  /** The state after the loop has handled exactly the cells before `(x, z, y)`. */
  ghost predicate Partial(o: Pos, b: Box, cells: Cells, pol: Policy,
                          w0: World, c0: Capture, w: World, c: Capture, x: int, z: int, y: int)
  {
    && PartialWorld(o, b, cells, w0, w, x, z, y)
    && PartialKeys(o, b, cells, c0, c, x, z, y)
    && PartialValues(o, b, cells, pol, w0, c0, c, x, z, y)
  }

  /** Visited cells carry their action's effect; the others are as before. */
  ghost predicate PartialWorld(o: Pos, b: Box, cells: Cells, w0: World, w: World, x: int, z: int, y: int)
  {
    forall p :: Get(w, p) == (if Visited(o, b, p, x, z, y) then Effect(ActAt(o, cells, p), Get(w0, p)) else Get(w0, p))
  }

  /** The capture holds the earlier entries plus the visited, non-skipped cells. */
  ghost predicate PartialKeys(o: Pos, b: Box, cells: Cells, c0: Capture, c: Capture, x: int, z: int, y: int)
  {
    forall p :: p in c <==> p in c0 || (Visited(o, b, p, x, z, y) && !ActAt(o, cells, p).Skip?)
  }

  /** Each newly recorded cell holds the state it had before the scan. */
  ghost predicate PartialValues(o: Pos, b: Box, cells: Cells, pol: Policy,
                                w0: World, c0: Capture, c: Capture, x: int, z: int, y: int)
  {
    forall p :: p in c ==> c[p] == (if Visited(o, b, p, x, z, y) && !ActAt(o, cells, p).Skip? then Recorded(pol, c0, p, Get(w0, p)) else Get(c0, p))
  }

  /** The innermost loop body at cursor `(x, y, z)` took `(w, c)` to `(w', c')`. */
  ghost predicate Stepped(o: Pos, cells: Cells, pol: Policy, w: World, c: Capture, w': World, c': Capture,
                          x: int, y: int, z: int)
  {
    var p := Offset(o, x, y, z);
    && (forall q :: Get(w', q) == (if q == p then Effect(cells(x, y, z), Get(w, q)) else Get(w, q)))
    && (forall q :: q in c' <==> q in c || (q == p && !cells(x, y, z).Skip?))
    && (forall q :: q in c' ==> c'[q] == (if q == p && !cells(x, y, z).Skip? then Recorded(pol, c, q, Get(w, q)) else c[q]))
  }

  /** Handle the cell at the cursor, as the innermost loop body does. */
  method Step(o: Pos, cells: Cells, pol: Policy, w: World, c: Capture, x: int, y: int, z: int)
    returns (w': World, c': Capture)
    ensures Stepped(o, cells, pol, w, c, w', c', x, y, z)
  {
    var p := Offset(o, x, y, z);
    match cells(x, y, z)
    case Skip =>
      w', c' := w, c;
    case Read =>
      w', c' := w, Record(pol, c, p, Get(w, p));
    case Paint(nb) =>
      c' := Record(pol, c, p, Get(w, p));
      w' := w[p := nb];
  }

  lemma VisitedNext(o: Pos, b: Box, x: int, z: int, y: int)
    requires b.x0 <= x < b.x1 && b.z0 <= z < b.z1 && b.y0 <= y < b.y1
    ensures forall p :: Visited(o, b, p, x, z, y + 1) <==> Visited(o, b, p, x, z, y) || p == Offset(o, x, y, z)
  {
  }

  lemma StepKeepsWorld(o: Pos, b: Box, cells: Cells, pol: Policy, w0: World,
                       w: World, c: Capture, w': World, c': Capture, x: int, z: int, y: int)
    requires b.x0 <= x < b.x1 && b.z0 <= z < b.z1 && b.y0 <= y < b.y1
    requires PartialWorld(o, b, cells, w0, w, x, z, y)
    requires Stepped(o, cells, pol, w, c, w', c', x, y, z)
    ensures PartialWorld(o, b, cells, w0, w', x, z, y + 1)
  {
    VisitedNext(o, b, x, z, y);
    var cell := Offset(o, x, y, z);
    assert ActAt(o, cells, cell) == cells(x, y, z);
    assert !Visited(o, b, cell, x, z, y);
  }

  lemma StepKeepsKeys(o: Pos, b: Box, cells: Cells, pol: Policy, c0: Capture,
                      w: World, c: Capture, w': World, c': Capture, x: int, z: int, y: int)
    requires b.x0 <= x < b.x1 && b.z0 <= z < b.z1 && b.y0 <= y < b.y1
    requires PartialKeys(o, b, cells, c0, c, x, z, y)
    requires Stepped(o, cells, pol, w, c, w', c', x, y, z)
    ensures PartialKeys(o, b, cells, c0, c', x, z, y + 1)
  {
    VisitedNext(o, b, x, z, y);
    var cell := Offset(o, x, y, z);
    assert ActAt(o, cells, cell) == cells(x, y, z);
  }

  lemma StepKeepsValues(o: Pos, b: Box, cells: Cells, pol: Policy, w0: World, c0: Capture,
                        w: World, c: Capture, w': World, c': Capture, x: int, z: int, y: int)
    requires b.x0 <= x < b.x1 && b.z0 <= z < b.z1 && b.y0 <= y < b.y1
    requires PartialWorld(o, b, cells, w0, w, x, z, y)
    requires PartialKeys(o, b, cells, c0, c, x, z, y)
    requires PartialValues(o, b, cells, pol, w0, c0, c, x, z, y)
    requires Stepped(o, cells, pol, w, c, w', c', x, y, z)
    ensures PartialValues(o, b, cells, pol, w0, c0, c', x, z, y + 1)
  {
    VisitedNext(o, b, x, z, y);
    var cell := Offset(o, x, y, z);
    assert ActAt(o, cells, cell) == cells(x, y, z);
    assert !Visited(o, b, cell, x, z, y);
  }

  lemma StepKeepsPartial(o: Pos, b: Box, cells: Cells, pol: Policy, w0: World, c0: Capture,
                         w: World, c: Capture, w': World, c': Capture, x: int, z: int, y: int)
    requires b.x0 <= x < b.x1 && b.z0 <= z < b.z1 && b.y0 <= y < b.y1
    requires Partial(o, b, cells, pol, w0, c0, w, c, x, z, y)
    requires Stepped(o, cells, pol, w, c, w', c', x, y, z)
    ensures Partial(o, b, cells, pol, w0, c0, w', c', x, z, y + 1)
  {
    StepKeepsWorld(o, b, cells, pol, w0, w, c, w', c', x, z, y);
    StepKeepsKeys(o, b, cells, pol, c0, w, c, w', c', x, z, y);
    StepKeepsValues(o, b, cells, pol, w0, c0, w, c, w', c', x, z, y);
  }

  /** Moving the cursor past the end of a `y` row, or of a `z` slab, visits nothing new. */
  lemma RowEnd(o: Pos, b: Box, cells: Cells, pol: Policy, w0: World, c0: Capture,
               w: World, c: Capture, x: int, z: int, y: int)
    requires y >= b.y1
    requires Partial(o, b, cells, pol, w0, c0, w, c, x, z, y)
    ensures Partial(o, b, cells, pol, w0, c0, w, c, x, z + 1, b.y0)
  {
    assert forall p :: Visited(o, b, p, x, z, y) <==> Visited(o, b, p, x, z + 1, b.y0);
  }

  lemma SlabEnd(o: Pos, b: Box, cells: Cells, pol: Policy, w0: World, c0: Capture,
                w: World, c: Capture, x: int, z: int)
    requires z >= b.z1
    requires Partial(o, b, cells, pol, w0, c0, w, c, x, z, b.y0)
    ensures Partial(o, b, cells, pol, w0, c0, w, c, x + 1, b.z0, b.y0)
  {
    assert forall p :: Visited(o, b, p, x, z, b.y0) <==> Visited(o, b, p, x + 1, b.z0, b.y0);
  }

  /** The outcome of a whole scan: cells of the box carry their action's effect on the
      state they had before, the capture gains exactly the touched cells, and the state
      recorded for each is the one read before the scan. */
  ghost predicate Ran(o: Pos, b: Box, cells: Cells, pol: Policy, w0: World, c0: Capture, w: World, c: Capture)
  {
    && (forall p :: Get(w, p) == (if InBox(o, b, p) then Effect(ActAt(o, cells, p), Get(w0, p)) else Get(w0, p)))
    && (forall p :: p in c <==> p in c0 || Touches(o, b, cells, p))
    && (forall p :: p in c ==> c[p] == (if Touches(o, b, cells, p) then Recorded(pol, c0, p, Get(w0, p)) else c0[p]))
  }

  /** The innermost loop: one `y` row at `(x, z)`. */
  method RunRow(o: Pos, b: Box, cells: Cells, pol: Policy, w0: World, c0: Capture,
                w: World, c: Capture, x: int, z: int)
    returns (w': World, c': Capture)
    requires b.x0 <= x < b.x1 && b.z0 <= z < b.z1
    requires Partial(o, b, cells, pol, w0, c0, w, c, x, z, b.y0)
    ensures Partial(o, b, cells, pol, w0, c0, w', c', x, z + 1, b.y0)
  {
    w', c' := w, c;
    var y := b.y0;
    while y < b.y1
      invariant b.y0 <= y
      invariant Partial(o, b, cells, pol, w0, c0, w', c', x, z, y)
    {
      var w2, c2 := Step(o, cells, pol, w', c', x, y, z);
      StepKeepsPartial(o, b, cells, pol, w0, c0, w', c', w2, c2, x, z, y);
      w', c' := w2, c2;
      y := y + 1;
    }
    RowEnd(o, b, cells, pol, w0, c0, w', c', x, z, y);
  }

  /** The middle loop: one `z` slab at `x`. */
  method RunSlab(o: Pos, b: Box, cells: Cells, pol: Policy, w0: World, c0: Capture,
                 w: World, c: Capture, x: int)
    returns (w': World, c': Capture)
    requires b.x0 <= x < b.x1
    requires Partial(o, b, cells, pol, w0, c0, w, c, x, b.z0, b.y0)
    ensures Partial(o, b, cells, pol, w0, c0, w', c', x + 1, b.z0, b.y0)
  {
    w', c' := w, c;
    var z := b.z0;
    while z < b.z1
      invariant b.z0 <= z
      invariant Partial(o, b, cells, pol, w0, c0, w', c', x, z, b.y0)
    {
      w', c' := RunRow(o, b, cells, pol, w0, c0, w', c', x, z);
      z := z + 1;
    }
    SlabEnd(o, b, cells, pol, w0, c0, w', c', x, z);
  }

  /** Before the first cell nothing is visited. */
  lemma ScanStart(o: Pos, b: Box, cells: Cells, pol: Policy, w0: World, c0: Capture)
    ensures Partial(o, b, cells, pol, w0, c0, w0, c0, b.x0, b.z0, b.y0)
  {
    assert forall p :: !Visited(o, b, p, b.x0, b.z0, b.y0);
  }

  /** Past the last slab every cell of the box is visited. */
  lemma ScanEnd(o: Pos, b: Box, cells: Cells, pol: Policy, w0: World, c0: Capture,
                w: World, c: Capture, x: int)
    requires x >= b.x1
    requires Partial(o, b, cells, pol, w0, c0, w, c, x, b.z0, b.y0)
    ensures Ran(o, b, cells, pol, w0, c0, w, c)
  {
    assert forall p :: Visited(o, b, p, x, b.z0, b.y0) <==> InBox(o, b, p);
  }

  /** Run the three nested loops over `b`. Each cell is visited once, so what ends up
      recorded for it is the state it had when the scan started (or, under `FirstWins`,
      an earlier record already in `c0`). */
  method Run(o: Pos, b: Box, cells: Cells, pol: Policy, w0: World, c0: Capture)
    returns (w: World, c: Capture)
    ensures Ran(o, b, cells, pol, w0, c0, w, c)
  {
    w, c := w0, c0;
    ScanStart(o, b, cells, pol, w0, c0);
    var x := b.x0;
    while x < b.x1
      invariant b.x0 <= x
      invariant Partial(o, b, cells, pol, w0, c0, w, c, x, b.z0, b.y0)
    {
      w, c := RunSlab(o, b, cells, pol, w0, c0, w, c, x);
      x := x + 1;
    }
    ScanEnd(o, b, cells, pol, w0, c0, w, c, x);
  }

  // ------------------------------------------------------------------
  // A generator is a sequence of such scans run one after another.

  /** One loop nest of a generator: the box it scans and what it does at each cell. */
  datatype Sweep = Sweep(box: Box, cells: Cells)

  /** What one position has been through: the block it holds, and its capture entry
      (`None`: not captured yet). */
  datatype CellState = CellState(block: Block, cap: Option<Block>)

  /** One sweep's effect on position `p`: if the sweep touches `p` it first records the
      block there (keeping an earlier record under `FirstWins`), then paints it if the
      action says so. */
  function StepCell(sw: Sweep, o: Pos, pol: Policy, p: Pos, st: CellState): CellState
  {
    if !InBox(o, sw.box, p) then st
    else
      var a := ActAt(o, sw.cells, p);
      var cap := if a.Skip? || (pol == FirstWins && st.cap.Some?) then st.cap else Some(st.block);
      CellState(Effect(a, st.block), cap)
  }

  /** Position `p`'s state after the sweeps `sws` run in order. */
  function After(sws: seq<Sweep>, o: Pos, pol: Policy, p: Pos, st: CellState): CellState
    decreases |sws|
  {
    if sws == [] then st else After(sws[1..], o, pol, p, StepCell(sws[0], o, pol, p, st))
  }

  lemma After1(sws: seq<Sweep>, o: Pos, pol: Policy, p: Pos, st: CellState)
    requires |sws| == 1
    ensures After(sws, o, pol, p, st) == StepCell(sws[0], o, pol, p, st)
  {
  }

  lemma After2(sws: seq<Sweep>, o: Pos, pol: Policy, p: Pos, st: CellState)
    requires |sws| == 2
    ensures After(sws, o, pol, p, st) == StepCell(sws[1], o, pol, p, StepCell(sws[0], o, pol, p, st))
  {
    After1(sws[1..], o, pol, p, StepCell(sws[0], o, pol, p, st));
  }

  lemma After3(sws: seq<Sweep>, o: Pos, pol: Policy, p: Pos, st: CellState)
    requires |sws| == 3
    ensures After(sws, o, pol, p, st) ==
      StepCell(sws[2], o, pol, p, StepCell(sws[1], o, pol, p, StepCell(sws[0], o, pol, p, st)))
  {
    After2(sws[1..], o, pol, p, StepCell(sws[0], o, pol, p, st));
  }

  lemma After4(sws: seq<Sweep>, o: Pos, pol: Policy, p: Pos, st: CellState)
    requires |sws| == 4
    ensures After(sws, o, pol, p, st) ==
      StepCell(sws[3], o, pol, p, StepCell(sws[2], o, pol, p, StepCell(sws[1], o, pol, p, StepCell(sws[0], o, pol, p, st))))
  {
    After3(sws[1..], o, pol, p, StepCell(sws[0], o, pol, p, st));
  }

  lemma After5(sws: seq<Sweep>, o: Pos, pol: Policy, p: Pos, st: CellState)
    requires |sws| == 5
    ensures After(sws, o, pol, p, st) ==
      StepCell(sws[4], o, pol, p, StepCell(sws[3], o, pol, p, StepCell(sws[2], o, pol, p,
        StepCell(sws[1], o, pol, p, StepCell(sws[0], o, pol, p, st)))))
  {
    After4(sws[1..], o, pol, p, StepCell(sws[0], o, pol, p, st));
  }

  lemma After6(sws: seq<Sweep>, o: Pos, pol: Policy, p: Pos, st: CellState)
    requires |sws| == 6
    ensures After(sws, o, pol, p, st) ==
      StepCell(sws[5], o, pol, p, StepCell(sws[4], o, pol, p, StepCell(sws[3], o, pol, p,
        StepCell(sws[2], o, pol, p, StepCell(sws[1], o, pol, p, StepCell(sws[0], o, pol, p, st))))))
  {
    After5(sws[1..], o, pol, p, StepCell(sws[0], o, pol, p, st));
  }

  /** A position the sweeps never record was never painted either: every write is
      preceded by a read of the same cell. */
  lemma {:induction false} UnrecordedUnchanged(sws: seq<Sweep>, o: Pos, pol: Policy, p: Pos, st: CellState)
    ensures After(sws, o, pol, p, st).cap.None? ==> After(sws, o, pol, p, st).block == st.block
    decreases |sws|
  {
    if sws != [] {
      var st' := StepCell(sws[0], o, pol, p, st);
      UnrecordedUnchanged(sws[1..], o, pol, p, st');
      if st'.cap.None? {
        assert st'.block == st.block;
      } else {
        KeepsRecord(sws[1..], o, pol, p, st');
      }
    }
  }

  /** Once recorded, a position stays recorded. */
  lemma {:induction false} KeepsRecord(sws: seq<Sweep>, o: Pos, pol: Policy, p: Pos, st: CellState)
    requires st.cap.Some?
    ensures After(sws, o, pol, p, st).cap.Some?
    decreases |sws|
  {
    if sws != [] {
      KeepsRecord(sws[1..], o, pol, p, StepCell(sws[0], o, pol, p, st));
    }
  }

  /** Under `FirstWins` the record of a position is the block it held before the first
      sweep: a record is only made while the position still holds that block, and it is
      never replaced afterwards. */
  lemma {:induction false} FirstWinsRecordsOriginal(sws: seq<Sweep>, o: Pos, p: Pos, st: CellState, b: Block)
    requires (st.cap.None? && st.block == b) || st.cap == Some(b)
    ensures After(sws, o, FirstWins, p, st).cap in {None, Some(b)}
    decreases |sws|
  {
    if sws != [] {
      FirstWinsRecordsOriginal(sws[1..], o, p, StepCell(sws[0], o, FirstWins, p, st), b);
    }
  }

  function Entry(c: Capture, p: Pos): Option<Block>
  {
    if p in c then Some(c[p]) else None
  }

  /** Run the sweeps in order on `w0`, recording into a fresh capture map. */
  method Generate(o: Pos, sws: seq<Sweep>, pol: Policy, w0: World) returns (w: World, c: Capture)
    ensures forall p :: CellState(Get(w, p), Entry(c, p)) == After(sws, o, pol, p, CellState(Get(w0, p), None))
    ensures Covers(w0, w, c)
    ensures pol == FirstWins ==> Faithful(w0, c, w)
  {
    w, c := w0, map[];
    var i := 0;
    while i < |sws|
      invariant 0 <= i <= |sws|
      invariant forall p :: After(sws[i..], o, pol, p, CellState(Get(w, p), Entry(c, p))) == After(sws, o, pol, p, CellState(Get(w0, p), None))
    {
      var w', c' := Run(o, sws[i].box, sws[i].cells, pol, w, c);
      forall p
        ensures After(sws[i + 1..], o, pol, p, CellState(Get(w', p), Entry(c', p))) == After(sws[i..], o, pol, p, CellState(Get(w, p), Entry(c, p)))
      {
        assert sws[i..][1..] == sws[i + 1..];
      }
      w, c := w', c';
      i := i + 1;
    }
    forall p
      ensures p !in c ==> Get(w, p) == Get(w0, p)
      ensures pol == FirstWins && p in c ==> c[p] == Get(w0, p)
    {
      UnrecordedUnchanged(sws, o, pol, p, CellState(Get(w0, p), None));
      if pol == FirstWins {
        FirstWinsRecordsOriginal(sws, o, p, CellState(Get(w0, p), None), Get(w0, p));
      }
    }
  }
}
