/** The voxel states the generators read and write. */
module Blocks {

  /** Every block the structure code names, plus `Other` for any state already in the world. */
  datatype Block =
    | Air | Water | Farmland | OakFence | OakLog | OakLeaves
    | OakPlanks | Stone | Cobblestone | StoneBricks
    | Bricks | RedSandstone | BrickStairs
    | Glass | WhiteStainedGlass | GlassPane
    | Sandstone | SmoothSandstone | ChiseledSandstone
    | DarkOakPlanks | DarkOakLog | DarkOakFence
    | QuartzBlock | QuartzPillar | ChiseledQuartzBlock
    | Prismarine | PrismarineBricks | DarkPrismarine
    | WhiteConcrete | LightGrayConcrete | GrayConcrete
    | Other(id: nat)
}

/** The nine material palettes, each naming a primary, secondary and decorative block. */
module Materials {
  import opened Blocks

  datatype MaterialType =
    | Wood | StoneMaterial | Brick | GlassMaterial | SandstoneMaterial
    | DarkOak | Quartz | PrismarineMaterial | Concrete

  /** The palettes in declaration order (the order the menu cycles through). */
  const AllMaterials: seq<MaterialType> :=
    [Wood, StoneMaterial, Brick, GlassMaterial, SandstoneMaterial, DarkOak, Quartz, PrismarineMaterial, Concrete]

  function PrimaryBlock(m: MaterialType): Block
  {
    match m
    case Wood => OakPlanks
    case StoneMaterial => Stone
    case Brick => Bricks
    case GlassMaterial => Glass
    case SandstoneMaterial => Sandstone
    case DarkOak => DarkOakPlanks
    case Quartz => QuartzBlock
    case PrismarineMaterial => Prismarine
    case Concrete => WhiteConcrete
  }

  function SecondaryBlock(m: MaterialType): Block
  {
    match m
    case Wood => OakLog
    case StoneMaterial => Cobblestone
    case Brick => RedSandstone
    case GlassMaterial => WhiteStainedGlass
    case SandstoneMaterial => SmoothSandstone
    case DarkOak => DarkOakLog
    case Quartz => QuartzPillar
    case PrismarineMaterial => PrismarineBricks
    case Concrete => LightGrayConcrete
  }

  function DecorativeBlock(m: MaterialType): Block
  {
    match m
    case Wood => OakFence
    case StoneMaterial => StoneBricks
    case Brick => BrickStairs
    case GlassMaterial => GlassPane
    case SandstoneMaterial => ChiseledSandstone
    case DarkOak => DarkOakFence
    case Quartz => ChiseledQuartzBlock
    case PrismarineMaterial => DarkPrismarine
    case Concrete => GrayConcrete
  }

  /** No palette paints with air or water, so the generators' carved doors and water
      cells are always distinguishable from material blocks. */
  lemma PalettesAreSolid(m: MaterialType)
    ensures PrimaryBlock(m) !in {Air, Water}
    ensures SecondaryBlock(m) !in {Air, Water}
    ensures DecorativeBlock(m) !in {Air, Water}
  {
  }
}
