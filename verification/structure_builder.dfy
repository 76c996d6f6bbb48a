/** `StructureBuilder.build`: pick the generator for the configured type, run it at the
    player's position plus the configured offset, and record the capture for undo; and
    `getBuildInfo`, the catalog of estimated block counts. */
module StructureBuilder {
  import opened Blocks
  import opened Materials
  import opened Options
  import opened Grid
  import opened Scan
  import opened BuildTypes
  import opened BuildSizes
  import opened BuildConfigs
  import opened Generators
  import opened Undo
  import opened BuildInfos

  /** The player asking for a build: identity, block position, and whether the world
      the player is in is the client-side copy. */
  datatype Player = Player(id: PlayerId, pos: Pos, onClient: bool)

  function Origin(pl: Player, cfg: BuildConfig): Pos
  {
    Offset(pl.pos, cfg.offsetX, cfg.offsetY, cfg.offsetZ)
  }

  /** What the generator for `cfg`'s type leaves behind, in world and capture. */
  ghost predicate Shaped(w0: World, o: Pos, cfg: BuildConfig, pol: Policy, w: World, c: Capture)
  {
    var m, s := cfg.material, cfg.size;
    match cfg.buildType
    case House =>
      && (forall p :: Get(w, p) == HouseBlockAt(o, m, HouseW(s), HouseH(s), HouseW(s), p, Get(w0, p)))
      && (forall p :: Entry(c, p) == HouseRecord(o, m, HouseW(s), HouseH(s), HouseW(s), pol, p, Get(w0, p)))
    case Tower =>
      && (forall p :: Get(w, p) == SlabBlockAt(o, TowerColumn(s), PrimaryBlock(m), p, Get(w0, p)))
      && (forall p :: Entry(c, p) == Once(InBox(o, TowerColumn(s), p), Get(w0, p)))
    case Mansion =>
      && (forall p :: Get(w, p) == MansionBlockAt(o, m, MansionW(s), MansionH(s), MansionW(s), p, Get(w0, p)))
      && (forall p :: Entry(c, p) == MansionRecord(o, m, MansionW(s), MansionH(s), MansionW(s), pol, p, Get(w0, p)))
    case Farm =>
      && (forall p :: Get(w, p) == FarmBlockAt(o, FarmW(s), FarmW(s), p, Get(w0, p)))
      && (forall p :: Entry(c, p) == FarmRecord(o, FarmW(s), FarmW(s), pol, p, Get(w0, p)))
    case Castle =>
      && (forall p :: Get(w, p) == CastleBlockAt(o, m, CastleW(s), CastleH(s), CastleW(s), CastleTowerH(s), p, Get(w0, p)))
      && (forall p :: Entry(c, p) == CastleRecord(o, m, CastleW(s), CastleH(s), CastleW(s), CastleTowerH(s), pol, p, Get(w0, p)))
    case Bridge =>
      && (forall p :: Get(w, p) == BridgeBlockAt(o, m, BridgeL(s), BridgeWd(s), p, Get(w0, p)))
      && (forall p :: Entry(c, p) == Once(BridgeCovers(o, BridgeL(s), BridgeWd(s), p), Get(w0, p)))
    case Fountain =>
      && (forall p :: Get(w, p) == FountainBlockAt(o, m, FountainR(s), FountainH(s), p, Get(w0, p)))
      && (forall p :: Entry(c, p) == FountainRecord(o, m, FountainR(s), FountainH(s), pol, p, Get(w0, p)))
    case Treehouse =>
      && (forall p :: Get(w, p) == TreehouseBlockAt(o, m, TrunkH(s), HalfHouse(s), p, Get(w0, p)))
      && (forall p :: Entry(c, p) == Once(TreehouseCovers(o, TrunkH(s), HalfHouse(s), p), Get(w0, p)))
    case Wall =>
      && (forall p :: Get(w, p) == SlabBlockAt(o, WallSlab(s), PrimaryBlock(m), p, Get(w0, p)))
      && (forall p :: Entry(c, p) == Once(InBox(o, WallSlab(s), p), Get(w0, p)))
    case Road =>
      && (forall p :: Get(w, p) == SlabBlockAt(o, RoadSlab(s), PrimaryBlock(m), p, Get(w0, p)))
      && (forall p :: Entry(c, p) == Once(InBox(o, RoadSlab(s), p), Get(w0, p)))
    case Custom =>
      w == w0 && c == map[]
  }

  /** The switch in `build`: one generator per type; `Custom` has no arm, so nothing is
      written and the capture stays empty. */
  method Dispatch(w0: World, o: Pos, cfg: BuildConfig, pol: Policy) returns (w: World, c: Capture)
    ensures Shaped(w0, o, cfg, pol, w, c)
    ensures Covers(w0, w, c)
    ensures pol == FirstWins ==> Faithful(w0, c, w)
  {
    match cfg.buildType
    case House => w, c := BuildHouse(w0, o, cfg, pol);
    case Tower => w, c := BuildTower(w0, o, cfg, pol);
    case Mansion => w, c := BuildMansion(w0, o, cfg, pol);
    case Farm => w, c := BuildFarm(w0, o, cfg, pol);
    case Castle => w, c := BuildCastle(w0, o, cfg, pol);
    case Bridge => w, c := BuildBridge(w0, o, cfg, pol);
    case Fountain => w, c := BuildFountain(w0, o, cfg, pol);
    case Treehouse => w, c := BuildTreehouse(w0, o, cfg, pol);
    case Wall => w, c := BuildWall(w0, o, cfg, pol);
    case Road => w, c := BuildRoad(w0, o, cfg, pol);
    case Custom => w, c := w0, map[];
  }

  /** `build`. With no player, or on the client, nothing happens at all. Otherwise the
      generator runs at the player's position plus the offset and exactly one action,
      the capture `c` it produced, is recorded for the player (an empty one for
      `Custom`). */
  method Build(w0: World, h: History, player: Option<Player>, cfg: BuildConfig, pol: Policy)
    returns (w: World, h': History, c: Capture)
    ensures player.None? || player.value.onClient ==> w == w0 && h' == h
    ensures player.Some? && !player.value.onClient ==>
      && h' == RecordAction(h, player.value.id, c)
      && Shaped(w0, Origin(player.value, cfg), cfg, pol, w, c)
      && Covers(w0, w, c)
      && (pol == FirstWins ==> Faithful(w0, c, w))
  {
    if player.None? {
      return w0, h, map[];
    }
    var pl := player.value;
    if pl.onClient {
      return w0, h, map[];
    }
    w, c := Dispatch(w0, Origin(pl, cfg), cfg, pol);
    h' := RecordAction(h, pl.id, c);
  }

  /** A build followed by an undo. Recording the first read of every cell, the undo
      gives back the world as it was before the build, everywhere. Recording the last
      read, as `build` does, the House door comes back as the primary block the wall
      loop put there, not as what stood there before. */
  method BuildThenUndo(w0: World, h: History, pl: Player, cfg: BuildConfig, pol: Policy)
    returns (w: World, h': History)
    requires !pl.onClient
    ensures pol == FirstWins ==> forall p :: Get(w, p) == Get(w0, p)
    ensures pol == LastWins && cfg.buildType == House ==>
      Get(w, HouseDoor(Origin(pl, cfg), cfg.size)) == PrimaryBlock(cfg.material)
    ensures |Actions(h, pl.id)| < MaxUndoHistory ==> Actions(h', pl.id) == Actions(h, pl.id)
    ensures forall q :: q != pl.id ==> Actions(h', q) == Actions(h, q)
  {
    var w1, h1, c := Build(w0, h, Some(pl), cfg, pol);
    RecordThenUndo(h, pl.id, c);
    var ok;
    ok, h', w := UndoLast(h1, pl.id, w1);
    if pol == FirstWins {
      RestoreFaithful(w0, c, w1);
    }
    if pol == LastWins && cfg.buildType == House {
      var door := HouseDoor(Origin(pl, cfg), cfg.size);
      assert Entry(c, door) == Some(PrimaryBlock(cfg.material));
    }
  }

  /** The counterexample behind `BuildThenUndo`: building a House on empty ground and
      undoing it leaves a primary block floating where the door was. */
  lemma UndoLeavesHouseDoor(o: Pos, cfg: BuildConfig, w: World, c: Capture)
    requires cfg.buildType == House
    requires Shaped(map[], o, cfg, LastWins, w, c)
    ensures Get(map[], HouseDoor(o, cfg.size)) == Air
    ensures Get(w + c, HouseDoor(o, cfg.size)) == PrimaryBlock(cfg.material) != Air
  {
    var door := HouseDoor(o, cfg.size);
    assert Entry(c, door) == Some(PrimaryBlock(cfg.material));
    PalettesAreSolid(cfg.material);
  }

  // ---------------------------------------------------------------- getBuildInfo

  /** One `addBlockRequirement` line of `getBuildInfo`: a name, a base count, and
      whether the count is multiplied by the scale. */
  datatype Requirement = Requirement(name: string, base: nat, scaled: bool)

  /** The count a requirement adds at a size: the base scaled and truncated, or the
      base as it is. */
  function Count(r: Requirement, s: BuildSize): nat
  {
    if r.scaled then Scaled(r.base, s) else r.base
  }

  /** The requirement lines of each type, in the order they are added. */
  function Catalog(t: BuildType): seq<Requirement>
  {
    match t
    case House => [Requirement("Primary Material", 50, true), Requirement("Roof Material", 36, true)]
    case Tower => [Requirement("Primary Material", 10, true)]
    case Mansion =>
      [Requirement("Primary Material", 400, true), Requirement("Secondary Material", 150, true),
       Requirement("Decorative Material", 100, true)]
    case Farm => [Requirement("Fence", 32, true), Requirement("Farmland", 36, true), Requirement("Water", 1, false)]
    case Castle => [Requirement("Primary Material", 600, true), Requirement("Tower Material", 200, true)]
    case Bridge => [Requirement("Primary Material", 45, true), Requirement("Railing Material", 30, true)]
    case Fountain => [Requirement("Primary Material", 30, true), Requirement("Water", 1, false)]
    case Treehouse => [Requirement("Wood Logs", 8, true), Requirement("Planks", 40, true), Requirement("Leaves", 20, true)]
    case Wall => [Requirement("Primary Material", 80, true)]
    case Road => [Requirement("Primary Material", 60, true)]
    case Custom => []
  }

  function Description(t: BuildType): string
  {
    match t
    case House => "A cozy house with walls, floor, and roof"
    case Tower => "A tall tower reaching to the sky"
    case Mansion => "A large multi-floor mansion"
    case Farm => "A fenced farm with farmland and water"
    case Castle => "A fortified castle with towers"
    case Bridge => "A sturdy bridge with railings"
    case Fountain => "A decorative fountain with water"
    case Treehouse => "A house built in a tree"
    case Wall => "A defensive wall"
    case Road => "A paved road"
    case Custom => "Custom structure"
  }

  function EstimatedSeconds(t: BuildType): int
  {
    match t
    case House => 5
    case Tower => 3
    case Mansion => 15
    case Farm => 8
    case Castle => 25
    case Bridge => 6
    case Fountain => 4
    case Treehouse => 10
    case Wall => 5
    case Road => 4
    case Custom => 10
  }

  /** Add the requirement lines in order; only the requirements change. */
  function AddAll(info: BuildInfo, rs: seq<Requirement>, s: BuildSize): (info': BuildInfo)
    ensures info'.buildType == info.buildType && info'.description == info.description
    ensures info'.estimatedSeconds == info.estimatedSeconds
    decreases |rs|
  {
    if rs == [] then info
    else
      var r := rs[|rs| - 1];
      AddBlockRequirement(AddAll(info, rs[..|rs| - 1], s), r.name, Count(r, s))
  }

  /** `getBuildInfo`: a new info for the type, then its requirement lines at the size.
      The result carries the type's description and time, and lists exactly the names of
      the type's lines, each with its count at the size. */
  function GetBuildInfo(t: BuildType, s: BuildSize): (info: BuildInfo)
    ensures info.buildType == t && info.description == Description(t)
    ensures info.estimatedSeconds == EstimatedSeconds(t)
    ensures info.blocksNeeded.Keys == Names(Catalog(t))
    ensures forall i :: 0 <= i < |Catalog(t)| ==> info.blocksNeeded[Catalog(t)[i].name] == Count(Catalog(t)[i], s)
  {
    CatalogWellFormed(t);
    AddAllContents(NewInfo(t, Description(t), EstimatedSeconds(t)), Catalog(t), s);
    AddAll(NewInfo(t, Description(t), EstimatedSeconds(t)), Catalog(t), s)
  }

  function Names(rs: seq<Requirement>): set<string>
  {
    set i | 0 <= i < |rs| :: rs[i].name
  }

  predicate DistinctNames(rs: seq<Requirement>)
  {
    forall i, j :: 0 <= i < j < |rs| ==> rs[i].name != rs[j].name
  }

  /** Adding lines with distinct names onto an empty info yields exactly those names,
      each with its own count. */
  lemma {:induction false} AddAllContents(info: BuildInfo, rs: seq<Requirement>, s: BuildSize)
    requires info.blocksNeeded == map[] && DistinctNames(rs)
    ensures AddAll(info, rs, s).blocksNeeded.Keys == Names(rs)
    ensures forall i :: 0 <= i < |rs| ==> AddAll(info, rs, s).blocksNeeded[rs[i].name] == Count(rs[i], s)
    decreases |rs|
  {
    if rs != [] {
      var init := rs[..|rs| - 1];
      AddAllContents(info, init, s);
      assert Names(rs) == Names(init) + {rs[|rs| - 1].name} by {
        forall n | n in Names(rs) ensures n in Names(init) + {rs[|rs| - 1].name} {
          var i :| 0 <= i < |rs| && rs[i].name == n;
          if i < |init| {
            assert init[i] == rs[i];
          }
        }
        forall n | n in Names(init) ensures n in Names(rs) {
          var i :| 0 <= i < |init| && init[i].name == n;
          assert rs[i] == init[i];
        }
      }
      forall i | 0 <= i < |rs| - 1
        ensures AddAll(info, rs, s).blocksNeeded[rs[i].name] == Count(rs[i], s)
      {
        assert init[i] == rs[i];
      }
    }
  }

  /** The House needs 50 primary and 36 roof blocks at Medium, each scaled by the size. */
  lemma HouseNeeds(s: BuildSize)
    ensures GetBuildInfo(House, s).blocksNeeded == map["Primary Material" := Scaled(50, s), "Roof Material" := Scaled(36, s)]
  {
    var m := GetBuildInfo(House, s).blocksNeeded;
    assert Catalog(House)[0].name == "Primary Material" && Catalog(House)[1].name == "Roof Material";
    assert m.Keys == {"Primary Material", "Roof Material"};
  }

  /** The only unscaled line is one water block. */
  predicate WaterUnscaled(rs: seq<Requirement>)
  {
    forall i :: 0 <= i < |rs| ==> (rs[i].name == "Water" <==> !rs[i].scaled) && (!rs[i].scaled ==> rs[i].base == 1)
  }

  /** Every type's lines have distinct names, and water is the only unscaled line. */
  lemma CatalogWellFormed(t: BuildType)
    ensures DistinctNames(Catalog(t)) && WaterUnscaled(Catalog(t))
  {
  }

  /** Lines added at any size carry the same names as at Medium, and their counts are
      the Medium counts scaled, water excepted. */
  lemma ScalesFromMedium(info: BuildInfo, rs: seq<Requirement>, s: BuildSize)
    requires info.blocksNeeded == map[] && DistinctNames(rs) && WaterUnscaled(rs)
    ensures AddAll(info, rs, s).blocksNeeded.Keys == AddAll(info, rs, Medium).blocksNeeded.Keys == Names(rs)
    ensures forall n :: n in AddAll(info, rs, s).blocksNeeded ==>
      AddAll(info, rs, Medium).blocksNeeded[n] >= 0 &&
      AddAll(info, rs, s).blocksNeeded[n] == if n == "Water" then 1 else Scaled(AddAll(info, rs, Medium).blocksNeeded[n], s)
  {
    AddAllContents(info, rs, s);
    AddAllContents(info, rs, Medium);
    forall n | n in AddAll(info, rs, s).blocksNeeded
      ensures AddAll(info, rs, Medium).blocksNeeded[n] >= 0 &&
        AddAll(info, rs, s).blocksNeeded[n] == if n == "Water" then 1 else Scaled(AddAll(info, rs, Medium).blocksNeeded[n], s)
    {
      var i :| 0 <= i < |rs| && rs[i].name == n;
    }
  }

  /** Every count is the Medium count scaled by the size, except the single water
      block, which stays 1 at every size; the names do not depend on the size. */
  lemma CatalogScales(t: BuildType, s: BuildSize)
    ensures GetBuildInfo(t, s).blocksNeeded.Keys == GetBuildInfo(t, Medium).blocksNeeded.Keys
    ensures forall n :: n in GetBuildInfo(t, s).blocksNeeded ==>
      GetBuildInfo(t, Medium).blocksNeeded[n] >= 0 &&
      GetBuildInfo(t, s).blocksNeeded[n] == if n == "Water" then 1 else Scaled(GetBuildInfo(t, Medium).blocksNeeded[n], s)
  {
    CatalogWellFormed(t);
    ScalesFromMedium(NewInfo(t, Description(t), EstimatedSeconds(t)), Catalog(t), s);
  }

  /** Only the Farm and the Fountain have a water line. */
  lemma WaterLines(t: BuildType)
    ensures "Water" in Names(Catalog(t)) <==> t == Farm || t == Fountain
  {
    var rs := Catalog(t);
    if t == Farm {
      assert rs[2].name == "Water";
    } else if t == Fountain {
      assert rs[1].name == "Water";
    } else {
      assert forall i :: 0 <= i < |rs| ==> rs[i].name != "Water";
    }
  }

  /** Water is needed exactly by the Farm and the Fountain, one block each. */
  lemma WaterIsOne(t: BuildType, s: BuildSize)
    ensures "Water" in GetBuildInfo(t, s).blocksNeeded <==> t == Farm || t == Fountain
    ensures "Water" in GetBuildInfo(t, s).blocksNeeded ==> GetBuildInfo(t, s).blocksNeeded["Water"] == 1
  {
    CatalogWellFormed(t);
    WaterLines(t);
    ScalesFromMedium(NewInfo(t, Description(t), EstimatedSeconds(t)), Catalog(t), s);
  }

  /** A larger size never needs fewer blocks of any kind. */
  lemma CatalogMonotone(t: BuildType, s: BuildSize, s': BuildSize, n: string)
    requires Halves(s) <= Halves(s')
    requires n in GetBuildInfo(t, s).blocksNeeded
    ensures n in GetBuildInfo(t, s').blocksNeeded
    ensures GetBuildInfo(t, s).blocksNeeded[n] <= GetBuildInfo(t, s').blocksNeeded[n]
  {
    CatalogScales(t, s);
    CatalogScales(t, s');
    if n != "Water" {
      ScaledMonotone(GetBuildInfo(t, Medium).blocksNeeded[n], s, s');
    }
  }

  /** `Custom` needs nothing, so its total is 0. */
  lemma CustomNeedsNothing(s: BuildSize)
    ensures GetBuildInfo(Custom, s).blocksNeeded == map[]
    ensures TotalOf(GetBuildInfo(Custom, s).blocksNeeded) == 0
  {
  }

  /** The base extents scale per axis: a House is 5 x 4 x 5 at Medium, 7 x 6 x 7 at Large
      and 2 x 2 x 2 at Small. */
  lemma HouseExtents()
    ensures HouseW(Medium) == 5 && HouseH(Medium) == 4
    ensures HouseW(Large) == 7 && HouseH(Large) == 6
    ensures HouseW(Small) == 2 && HouseH(Small) == 2
    ensures HouseW(ExtraLarge) == 10 && HouseH(ExtraLarge) == 8
  {
  }
}
