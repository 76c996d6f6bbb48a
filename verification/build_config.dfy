/** The parameter bundle a build consumes, with its defaults, setters and copy. */
module BuildConfigs {
  import opened JavaInt
  import opened BuildTypes
  import opened BuildSizes
  import opened Materials

  /** Style labels; no generator reads the style. */
  datatype BuildStyle = Standard | Modern | Medieval | Rustic | Futuristic

  /** Rotation is carried in degrees but no generator reads it either. */
  datatype BuildConfig = BuildConfig(
    buildType: BuildType,
    material: MaterialType,
    size: BuildSize,
    style: BuildStyle,
    rotation: int,
    offsetX: int,
    offsetY: int,
    offsetZ: int)

  /** The configuration a menu selection starts from. */
  function NewConfig(t: BuildType): (c: BuildConfig)
    ensures c.buildType == t
    ensures c.material == Wood && c.size == Medium && c.style == Standard
    ensures c.rotation == 0
    ensures c.offsetX == 2 && c.offsetY == 0 && c.offsetZ == 2
  {
    BuildConfig(t, Wood, Medium, Standard, 0, 2, 0, 2)
  }

  /** Two configurations agree on every field except possibly the rotation. */
  predicate SameButRotation(c: BuildConfig, d: BuildConfig)
  {
    && c.buildType == d.buildType && c.material == d.material && c.size == d.size
    && c.style == d.style && c.offsetX == d.offsetX && c.offsetY == d.offsetY && c.offsetZ == d.offsetZ
  }

  function SetBuildType(c: BuildConfig, t: BuildType): (d: BuildConfig)
    ensures d.buildType == t
    ensures d.material == c.material && d.size == c.size && d.style == c.style && d.rotation == c.rotation
    ensures d.offsetX == c.offsetX && d.offsetY == c.offsetY && d.offsetZ == c.offsetZ
  {
    c.(buildType := t)
  }

  function SetMaterial(c: BuildConfig, m: MaterialType): (d: BuildConfig)
    ensures d.material == m
    ensures d.buildType == c.buildType && d.size == c.size && d.style == c.style && d.rotation == c.rotation
    ensures d.offsetX == c.offsetX && d.offsetY == c.offsetY && d.offsetZ == c.offsetZ
  {
    c.(material := m)
  }

  function SetSize(c: BuildConfig, s: BuildSize): (d: BuildConfig)
    ensures d.size == s
    ensures d.buildType == c.buildType && d.material == c.material && d.style == c.style && d.rotation == c.rotation
    ensures d.offsetX == c.offsetX && d.offsetY == c.offsetY && d.offsetZ == c.offsetZ
  {
    c.(size := s)
  }

  function SetStyle(c: BuildConfig, st: BuildStyle): (d: BuildConfig)
    ensures d.style == st
    ensures d.buildType == c.buildType && d.material == c.material && d.size == c.size && d.rotation == c.rotation
    ensures d.offsetX == c.offsetX && d.offsetY == c.offsetY && d.offsetZ == c.offsetZ
  {
    c.(style := st)
  }

  function SetOffsetX(c: BuildConfig, x: int): (d: BuildConfig)
    ensures d.offsetX == x && d.offsetY == c.offsetY && d.offsetZ == c.offsetZ
    ensures d.buildType == c.buildType && d.material == c.material && d.size == c.size
    ensures d.style == c.style && d.rotation == c.rotation
  {
    c.(offsetX := x)
  }

  function SetOffsetY(c: BuildConfig, y: int): (d: BuildConfig)
    ensures d.offsetY == y && d.offsetX == c.offsetX && d.offsetZ == c.offsetZ
    ensures d.buildType == c.buildType && d.material == c.material && d.size == c.size
    ensures d.style == c.style && d.rotation == c.rotation
  {
    c.(offsetY := y)
  }

  function SetOffsetZ(c: BuildConfig, z: int): (d: BuildConfig)
    ensures d.offsetZ == z && d.offsetX == c.offsetX && d.offsetY == c.offsetY
    ensures d.buildType == c.buildType && d.material == c.material && d.size == c.size
    ensures d.style == c.style && d.rotation == c.rotation
  {
    c.(offsetZ := z)
  }

  /** `setRotation(r)` keeps Java's `r % 360`: congruent to `r` modulo 360, strictly
      between -360 and 360, and with the sign of `r` (so -90 stays -90 instead of
      becoming 270). */
  function SetRotation(c: BuildConfig, r: int): (d: BuildConfig)
    ensures SameButRotation(c, d)
    ensures -360 < d.rotation < 360
    ensures (r - d.rotation) % 360 == 0
    ensures r >= 0 ==> d.rotation >= 0
    ensures r <= 0 ==> d.rotation <= 0
  {
    var q := JavaDiv(r, 360);
    assert r - JavaRem(r, 360) == 360 * q;
    c.(rotation := JavaRem(r, 360))
  }

  /** The menu's rotate-left and rotate-right buttons. */
  function RotateLeft(c: BuildConfig): BuildConfig
  {
    SetRotation(c, c.rotation - 90)
  }

  function RotateRight(c: BuildConfig): BuildConfig
  {
    SetRotation(c, c.rotation + 90)
  }

  /** A rotation already in range is left alone, so `setRotation(getRotation())` is a no-op
      and applying `setRotation` twice is applying it once. */
  lemma SetRotationIdempotent(c: BuildConfig, r: int)
    ensures SetRotation(c, c.rotation) == c <== -360 < c.rotation < 360
    ensures var d := SetRotation(c, r); SetRotation(d, d.rotation) == d
  {
  }

  /** Java's `% 360` leaves an angle strictly between -360 and 360 as it is, and sends ±360 to 0. */
  lemma RemInRange(r: int)
    ensures -360 < r < 360 ==> JavaRem(r, 360) == r
    ensures JavaRem(360, 360) == 0 && JavaRem(-360, 360) == 0
  {
    if -360 < r < 360 {
      assert JavaDiv(r, 360) == 0;
    }
    assert JavaDiv(360, 360) == 1;
    assert JavaDiv(-360, 360) == -1;
  }

  /** Four left quarter turns from a fresh configuration pass through the negative angles
      -90, -180 and -270 (never 270) and return to 0. */
  lemma FourLeftTurns(t: BuildType)
    ensures var c0 := NewConfig(t);
      && RotateLeft(c0).rotation == -90
      && RotateLeft(RotateLeft(c0)).rotation == -180
      && RotateLeft(RotateLeft(RotateLeft(c0))).rotation == -270
      && RotateLeft(RotateLeft(RotateLeft(RotateLeft(c0)))) == c0
  {
    var c0 := NewConfig(t);
    RemInRange(-90);
    var l1 := RotateLeft(c0);
    RemInRange(-180);
    var l2 := RotateLeft(l1);
    RemInRange(-270);
    var l3 := RotateLeft(l2);
    RemInRange(-360);
  }

  /** Four right quarter turns from a fresh configuration return to 0. */
  lemma FourRightTurns(t: BuildType)
    ensures var c0 := NewConfig(t);
      && RotateRight(c0).rotation == 90
      && RotateRight(RotateRight(RotateRight(RotateRight(c0)))) == c0
  {
    var c0 := NewConfig(t);
    RemInRange(90);
    var r1 := RotateRight(c0);
    RemInRange(180);
    var r2 := RotateRight(r1);
    RemInRange(270);
    var r3 := RotateRight(r2);
    RemInRange(360);
  }

  /** `copy()`: a configuration whose eight fields equal the original's. Configurations
      are values here, so changing the copy afterwards cannot reach the original. */
  function Copy(c: BuildConfig): (d: BuildConfig)
    ensures SameButRotation(c, d) && d.rotation == c.rotation
  {
    var d := NewConfig(c.buildType);
    d.(material := c.material, size := c.size, style := c.style, rotation := c.rotation,
       offsetX := c.offsetX, offsetY := c.offsetY, offsetZ := c.offsetZ)
  }
}
