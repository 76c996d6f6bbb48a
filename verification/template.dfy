/** A saved structure: named relative block positions with nominal dimensions. */
module Templates {
  import opened Blocks
  import opened Materials
  import opened Grid
  import opened BuildSizes

  datatype Template = Template(name: string, blocks: map<Pos, Block>, width: int, height: int, depth: int)

  /** `getBlockCount`: the number of distinct positions holding a block. */
  function BlockCount(t: Template): nat
  {
    |t.blocks|
  }

  /** A new template has the given name and dimensions and no blocks. */
  function NewTemplate(name: string, width: int, height: int, depth: int): (t: Template)
    ensures t.name == name && t.width == width && t.height == height && t.depth == depth
    ensures BlockCount(t) == 0
  {
    Template(name, map[], width, height, depth)
  }

  /** `setBlock`: put a block at a relative position, replacing whatever was there. */
  function SetBlock(t: Template, x: int, y: int, z: int, b: Block): (t': Template)
    ensures Pos(x, y, z) in t'.blocks && t'.blocks[Pos(x, y, z)] == b
    ensures t'.blocks.Keys == t.blocks.Keys + {Pos(x, y, z)}
    ensures forall p :: p in t.blocks && p != Pos(x, y, z) ==> t'.blocks[p] == t.blocks[p]
    ensures BlockCount(t') == BlockCount(t) + (if Pos(x, y, z) in t.blocks then 0 else 1)
    ensures t'.name == t.name && t'.width == t.width && t'.height == t.height && t'.depth == t.depth
  {
    t.(blocks := t.blocks[Pos(x, y, z) := b])
  }

  /** Setting the same position twice keeps only the second block. */
  lemma SetBlockOverwrites(t: Template, x: int, y: int, z: int, a: Block, b: Block)
    ensures SetBlock(SetBlock(t, x, y, z, a), x, y, z, b) == SetBlock(t, x, y, z, b)
  {
  }

  /** Set each listed position in turn. */
  function SetAll(t: Template, entries: seq<(Pos, Block)>): Template
    decreases |entries|
  {
    if entries == [] then t
    else
      var e := entries[|entries| - 1];
      SetBlock(SetAll(t, entries[..|entries| - 1]), e.0.x, e.0.y, e.0.z, e.1)
  }

  function PositionsOf(entries: seq<(Pos, Block)>): set<Pos>
  {
    set i | 0 <= i < |entries| :: entries[i].0
  }

  lemma PositionsOfSnoc(entries: seq<(Pos, Block)>)
    requires entries != []
    ensures PositionsOf(entries) == PositionsOf(entries[..|entries| - 1]) + {entries[|entries| - 1].0}
  {
    var init := entries[..|entries| - 1];
    forall q | q in PositionsOf(entries) ensures q in PositionsOf(init) + {entries[|entries| - 1].0} {
      var i :| 0 <= i < |entries| && entries[i].0 == q;
      if i < |init| {
        assert init[i] == entries[i];
      }
    }
    forall q | q in PositionsOf(init) ensures q in PositionsOf(entries) {
      var i :| 0 <= i < |init| && init[i].0 == q;
      assert entries[i] == init[i];
    }
  }

  /** Filling a new template, the block count is the number of distinct positions set,
      however often a position is repeated. */
  lemma {:induction false} CountIsDistinctPositions(name: string, width: int, height: int, depth: int, entries: seq<(Pos, Block)>)
    ensures SetAll(NewTemplate(name, width, height, depth), entries).blocks.Keys == PositionsOf(entries)
    ensures BlockCount(SetAll(NewTemplate(name, width, height, depth), entries)) == |PositionsOf(entries)|
    decreases |entries|
  {
    if entries != [] {
      CountIsDistinctPositions(name, width, height, depth, entries[..|entries| - 1]);
      PositionsOfSnoc(entries);
      var e := entries[|entries| - 1];
      assert e.0 == Pos(e.0.x, e.0.y, e.0.z);
    }
  }

  /** `withMaterial`: a template with the same name, dimensions and positions, every
      block replaced by the material's primary block. */
  function WithMaterial(t: Template, m: MaterialType): (t': Template)
    ensures t'.blocks.Keys == t.blocks.Keys && BlockCount(t') == BlockCount(t)
    ensures forall p :: p in t'.blocks ==> t'.blocks[p] == PrimaryBlock(m)
    ensures t'.name == t.name && t'.width == t.width && t'.height == t.height && t'.depth == t.depth
  {
    var blocks := map p | p in t.blocks :: PrimaryBlock(m);
    assert blocks.Keys == t.blocks.Keys;
    t.(blocks := blocks)
  }

  /** Re-materialising only keeps the last material. */
  lemma WithMaterialTwice(t: Template, a: MaterialType, b: MaterialType)
    ensures WithMaterial(WithMaterial(t, a), b) == WithMaterial(t, b)
  {
  }

  /** `Math.max(1, (int)(d * scale))`: a scaled dimension is never below 1. */
  function ScaledDim(d: int, s: BuildSize): (r: int)
    ensures r >= 1
    ensures r >= ScaledSigned(d, s) && (r == 1 || r == ScaledSigned(d, s))
  {
    var v := ScaledSigned(d, s);
    if v > 1 then v else 1
  }

  /** A position scaled per axis, each coordinate truncated toward zero. */
  function ScalePos(p: Pos, s: BuildSize): Pos
  {
    Pos(ScaledSigned(p.x, s), ScaledSigned(p.y, s), ScaledSigned(p.z, s))
  }

  /** At Medium nothing moves. */
  lemma MediumScaleFixes(p: Pos)
    ensures ScalePos(p, Medium) == p
  {
  }

  /** The positions a set of positions is sent to by `f`. */
  function Image(ps: set<Pos>, f: Pos -> Pos): set<Pos>
  {
    set p | p in ps :: f(p)
  }

  lemma ImageAdd(ps: set<Pos>, p: Pos, f: Pos -> Pos)
    ensures Image(ps + {p}, f) == Image(ps, f) + {f(p)}
  {
  }

  /** A scale that moves no position keeps a scaled map whose entries each come from
      their own position equal to the original map. */
  lemma FixedScaleKeepsBlocks(a: map<Pos, Block>, b: map<Pos, Block>, f: Pos -> Pos)
    requires forall p :: f(p) == p
    requires b.Keys == Image(a.Keys, f)
    requires forall q :: q in b ==> exists p :: p in a && f(p) == q && a[p] == b[q]
    ensures b == a
  {
    assert b.Keys == a.Keys;
  }

  /** The keys of the block-moving loop's result with `rest` still to move: the image
      of the moved positions, never more of them than were moved. */
  ghost predicate MovedKeys(blocks: map<Pos, Block>, f: Pos -> Pos, rest: set<Pos>, out: map<Pos, Block>)
  {
    && rest <= blocks.Keys
    && out.Keys == Image(blocks.Keys - rest, f)
    && |out| + |rest| <= |blocks|
  }

  /** Each block of the result comes from a position `f` sends there. */
  ghost predicate MovedFrom(blocks: map<Pos, Block>, f: Pos -> Pos, out: map<Pos, Block>)
  {
    forall q :: q in out ==> exists p :: p in blocks && f(p) == q && blocks[p] == out[q]
  }

  /** Taking `p` out of the positions still to move adds `f(p)` to the image of the
      moved ones. */
  lemma ImageRestStep(keys: set<Pos>, rest: set<Pos>, p: Pos, f: Pos -> Pos)
    requires p in rest
    ensures Image(keys - (rest - {p}), f) == Image(keys - rest, f) + (if p in keys then {f(p)} else {})
  {
    if p in keys {
      assert keys - (rest - {p}) == (keys - rest) + {p};
      ImageAdd(keys - rest, p, f);
    } else {
      assert keys - (rest - {p}) == keys - rest;
    }
  }

  /** Storing one entry grows a map by at most one. */
  lemma UpdateGrowsByOne(m: map<Pos, Block>, k: Pos, v: Block)
    ensures |m[k := v]| <= |m| + 1
  {
    if k in m {
      assert m[k := v].Keys == m.Keys;
    } else {
      assert m[k := v].Keys == m.Keys + {k};
    }
  }

  lemma MoveOneKeys(blocks: map<Pos, Block>, f: Pos -> Pos, rest: set<Pos>, out: map<Pos, Block>, p: Pos)
    requires MovedKeys(blocks, f, rest, out) && p in rest
    ensures MovedKeys(blocks, f, rest - {p}, out[f(p) := blocks[p]])
  {
    ImageRestStep(blocks.Keys, rest, p, f);
    UpdateGrowsByOne(out, f(p), blocks[p]);
    assert |rest - {p}| == |rest| - 1;
  }

  lemma MoveOneFrom(blocks: map<Pos, Block>, f: Pos -> Pos, out: map<Pos, Block>, p: Pos)
    requires MovedFrom(blocks, f, out) && p in blocks
    ensures MovedFrom(blocks, f, out[f(p) := blocks[p]])
  {
    var out' := out[f(p) := blocks[p]];
    forall q | q in out' ensures exists p' :: p' in blocks && f(p') == q && blocks[p'] == out'[q] {
      if q == f(p) {
        assert blocks[p] == out'[q];
      } else {
        var p' :| p' in blocks && f(p') == q && blocks[p'] == out[q];
      }
    }
  }

  /** The block-moving loop of `withScale`: every entry is put at the position `f`
      sends it to, later entries overwriting earlier ones that collide. */
  method MoveBlocks(blocks: map<Pos, Block>, f: Pos -> Pos) returns (out: map<Pos, Block>)
    ensures out.Keys == Image(blocks.Keys, f)
    ensures forall q :: q in out ==> exists p :: p in blocks && f(p) == q && blocks[p] == out[q]
    ensures |out| <= |blocks|
  {
    out := map[];
    var rest := blocks.Keys;
    while rest != {}
      invariant MovedKeys(blocks, f, rest, out) && MovedFrom(blocks, f, out)
      decreases |rest|
    {
      var p :| p in rest;
      MoveOneKeys(blocks, f, rest, out, p);
      MoveOneFrom(blocks, f, out, p);
      out := out[f(p) := blocks[p]];
      rest := rest - {p};
    }
    assert blocks.Keys - rest == blocks.Keys;
  }

  /** `withScale` for one of the build sizes' scale factors: the dimensions scaled and
      clamped to at least 1; every block moved to its scaled position. Positions that
      collide merge, and which of their blocks survives depends on the iteration order
      of the source map, so only "one of them" is promised. */
  method WithScale(t: Template, s: BuildSize) returns (t': Template)
    ensures t'.name == t.name
    ensures t'.width == ScaledDim(t.width, s) && t'.height == ScaledDim(t.height, s) && t'.depth == ScaledDim(t.depth, s)
    ensures t'.blocks.Keys == Image(t.blocks.Keys, p => ScalePos(p, s))
    ensures forall q :: q in t'.blocks ==> exists p :: p in t.blocks && ScalePos(p, s) == q && t.blocks[p] == t'.blocks[q]
    ensures BlockCount(t') <= BlockCount(t)
    ensures s == Medium ==> t'.blocks == t.blocks
  {
    var scale := p => ScalePos(p, s);
    var out := MoveBlocks(t.blocks, scale);
    t' := Template(t.name, out, ScaledDim(t.width, s), ScaledDim(t.height, s), ScaledDim(t.depth, s));
    if s == Medium {
      forall p ensures scale(p) == p {
        MediumScaleFixes(p);
      }
      FixedScaleKeepsBlocks(t.blocks, out, scale);
    }
  }
}
