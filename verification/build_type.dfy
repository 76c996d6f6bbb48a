/** The eleven build types and the five categories that group them. */
module BuildTypes {

  datatype BuildCategory = Buildings | Agricultural | Infrastructure | Decorative | CustomCategory

  datatype BuildType =
    | House | Mansion | Tower | Castle
    | Farm
    | Bridge | Road | Wall
    | Fountain | Treehouse
    | Custom

  /** The build types in declaration order. */
  const AllBuildTypes: seq<BuildType> :=
    [House, Mansion, Tower, Castle, Farm, Bridge, Road, Wall, Fountain, Treehouse, Custom]

  const AllCategories: seq<BuildCategory> :=
    [Buildings, Agricultural, Infrastructure, Decorative, CustomCategory]

  /** `getCategory`: the category each constant is declared with. The types of a
      category are exactly the ones declared under its heading. */
  function CategoryOf(t: BuildType): (c: BuildCategory)
    ensures c == Buildings <==> t in {House, Mansion, Tower, Castle}
    ensures c == Agricultural <==> t == Farm
    ensures c == Infrastructure <==> t in {Bridge, Road, Wall}
    ensures c == Decorative <==> t in {Fountain, Treehouse}
    ensures c == CustomCategory <==> t == Custom
  {
    match t
    case House | Mansion | Tower | Castle => Buildings
    case Farm => Agricultural
    case Bridge | Road | Wall => Infrastructure
    case Fountain | Treehouse => Decorative
    case Custom => CustomCategory
  }

  /** The build types a category groups. */
  function TypesIn(cat: BuildCategory): (ts: set<BuildType>)
    ensures forall t :: t in ts <==> CategoryOf(t) == cat
  {
    set t: BuildType | CategoryOf(t) == cat
  }

  lemma ElevenTypes()
    ensures |AllBuildTypes| == 11
    ensures forall t: BuildType :: t in AllBuildTypes
    ensures forall i, j :: 0 <= i < j < |AllBuildTypes| ==> AllBuildTypes[i] != AllBuildTypes[j]
  {
    forall t: BuildType ensures t in AllBuildTypes {
      match t
      case House => case Mansion => case Tower => case Castle => case Farm =>
      case Bridge => case Road => case Wall => case Fountain => case Treehouse => case Custom =>
    }
  }

  lemma CategoryContents()
    ensures TypesIn(Buildings) == {House, Mansion, Tower, Castle}
    ensures TypesIn(Agricultural) == {Farm}
    ensures TypesIn(Infrastructure) == {Bridge, Road, Wall}
    ensures TypesIn(Decorative) == {Fountain, Treehouse}
    ensures TypesIn(CustomCategory) == {Custom}
  {
    forall t
      ensures t in TypesIn(Buildings) <==> t in {House, Mansion, Tower, Castle}
      ensures t in TypesIn(Agricultural) <==> t in {Farm}
      ensures t in TypesIn(Infrastructure) <==> t in {Bridge, Road, Wall}
      ensures t in TypesIn(Decorative) <==> t in {Fountain, Treehouse}
      ensures t in TypesIn(CustomCategory) <==> t in {Custom}
    {
      match t
      case House => case Mansion => case Tower => case Castle => case Farm =>
      case Bridge => case Road => case Wall => case Fountain => case Treehouse => case Custom =>
    }
  }

  /** Every type lies in the category it names, and in no other; every category is inhabited.
      In particular Custom is the only type of the Custom category. */
  lemma CategoriesPartitionTypes()
    ensures forall t :: t in TypesIn(CategoryOf(t))
    ensures forall c1, c2 :: c1 != c2 ==> TypesIn(c1) !! TypesIn(c2)
    ensures forall cat :: TypesIn(cat) != {}
  {
    CategoryContents();
    forall cat ensures TypesIn(cat) != {} {
      match cat
      case Buildings => assert House in TypesIn(cat);
      case Agricultural => assert Farm in TypesIn(cat);
      case Infrastructure => assert Road in TypesIn(cat);
      case Decorative => assert Fountain in TypesIn(cat);
      case CustomCategory => assert Custom in TypesIn(cat);
    }
  }
}
