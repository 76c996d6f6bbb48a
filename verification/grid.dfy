/** An optional value: `None` where the source would hold null or nothing. */
module Options {
  datatype Option<+T> = None | Some(value: T)
}

/** The voxel world as an abstract grid, and the capture map a build records. */
module Grid {
  import opened Blocks

  datatype Pos = Pos(x: int, y: int, z: int)

  /** The world: a position the map does not mention holds air. */
  type World = map<Pos, Block>

  /** Position to the block state read there while building. */
  type Capture = map<Pos, Block>

  function Get(w: World, p: Pos): Block
  {
    if p in w then w[p] else Air
  }

  /** `origin.add(dx, dy, dz)`. */
  function Offset(o: Pos, dx: int, dy: int, dz: int): Pos
  {
    Pos(o.x + dx, o.y + dy, o.z + dz)
  }

  /** How a capture treats a position it has already recorded: `LastWins` is
      `HashMap.put` (the later read replaces the earlier one), `FirstWins` is
      `putIfAbsent` (the first read is kept). */
  datatype Policy = LastWins | FirstWins

  function Recorded(pol: Policy, c: Capture, p: Pos, v: Block): Block
  {
    if pol == FirstWins && p in c then c[p] else v
  }

  /** Record the state `v` read at `p`. */
  function Record(pol: Policy, c: Capture, p: Pos, v: Block): (c': Capture)
    ensures c'.Keys == c.Keys + {p}
    ensures c'[p] == Recorded(pol, c, p, v)
    ensures forall q :: q in c && q != p ==> c'[q] == c[q]
  {
    if pol == FirstWins && p in c then c else c[p := v]
  }

  /** Every position whose block differs between `w0` and `w` is in the capture. */
  ghost predicate Covers(w0: World, w: World, c: Capture)
  {
    forall p :: p !in c ==> Get(w, p) == Get(w0, p)
  }

  /** Every position the capture mentions holds the state `w0` had there, and every
      position it does not mention still holds that state: restoring the capture
      over `w` gives back `w0`. */
  ghost predicate Faithful(w0: World, c: Capture, w: World)
  {
    && (forall p :: p in c ==> c[p] == Get(w0, p))
    && Covers(w0, w, c)
  }
}
