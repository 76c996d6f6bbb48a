/** What the menu shows about a build before it runs: a description, the blocks it
    needs by name, and an estimated time. */
module BuildInfos {
  import opened Options
  import opened Text
  import opened BuildTypes

  datatype BuildInfo = BuildInfo(
    buildType: BuildType,
    description: string,
    blocksNeeded: map<string, int>,
    estimatedSeconds: int)

  /** A new info has no requirements. */
  function NewInfo(t: BuildType, description: string, seconds: int): (info: BuildInfo)
    ensures info.blocksNeeded == map[] && TotalOf(info.blocksNeeded) == 0
    ensures info.buildType == t && info.description == description && info.estimatedSeconds == seconds
  {
    BuildInfo(t, description, map[], seconds)
  }

  /** `addBlockRequirement`: a name already present gets the new count, replacing the
      old one rather than adding to it. */
  function AddBlockRequirement(info: BuildInfo, name: string, count: int): (info': BuildInfo)
    ensures name in info'.blocksNeeded && info'.blocksNeeded[name] == count
    ensures info'.blocksNeeded.Keys == info.blocksNeeded.Keys + {name}
    ensures forall n :: n in info.blocksNeeded && n != name ==> info'.blocksNeeded[n] == info.blocksNeeded[n]
    ensures info'.buildType == info.buildType && info'.description == info.description
    ensures info'.estimatedSeconds == info.estimatedSeconds
  {
    info.(blocksNeeded := info.blocksNeeded[name := count])
  }

  /** Some key of a non-empty map. */
  ghost function Pick(m: map<string, int>): (k: string)
    requires m != map[]
    ensures k in m
  {
    var k :| k in m; k
  }

  /** The sum of a map's values, whatever order they are taken in (see `TotalRemove`). */
  ghost function TotalOf(m: map<string, int>): int
    decreases |m|
  {
    if m == map[] then 0
    else
      var k := Pick(m);
      assert (m - {k}).Keys == m.Keys - {k};
      m[k] + TotalOf(m - {k})
  }

  /** Taking any one entry out first gives the same sum. */
  lemma {:induction false} TotalRemove(m: map<string, int>, k: string)
    requires k in m
    ensures TotalOf(m) == m[k] + TotalOf(m - {k})
    decreases |m|
  {
    var j := Pick(m);
    if j != k {
      assert (m - {j}).Keys == m.Keys - {j};
      assert (m - {k}).Keys == m.Keys - {k};
      TotalRemove(m - {j}, k);
      TotalRemove(m - {k}, j);
      assert m - {j} - {k} == m - {k} - {j};
    }
  }

  /** `getTotalBlocks`: add up the counts, one entry at a time. */
  method TotalBlocks(info: BuildInfo) returns (total: int)
    ensures total == TotalOf(info.blocksNeeded)
  {
    total := 0;
    var rest := info.blocksNeeded;
    while rest != map[]
      invariant total + TotalOf(rest) == TotalOf(info.blocksNeeded)
      decreases |rest|
    {
      var k :| k in rest;
      TotalRemove(rest, k);
      total := total + rest[k];
      assert (rest - {k}).Keys == rest.Keys - {k};
      rest := rest - {k};
    }
  }

  /** Setting a requirement changes the total by the difference: a new name adds its
      count, an existing name trades its old count for the new one. */
  lemma TotalAfterAdd(info: BuildInfo, name: string, count: int)
    ensures var old_ := info.blocksNeeded;
      TotalOf(AddBlockRequirement(info, name, count).blocksNeeded) ==
        TotalOf(old_) + count - (if name in old_ then old_[name] else 0)
  {
    var m := info.blocksNeeded;
    var m' := m[name := count];
    TotalRemove(m', name);
    assert m' - {name} == m - {name};
    if name in m {
      TotalRemove(m, name);
    } else {
      assert m - {name} == m;
    }
  }

  /** Setting the same name twice keeps only the second count. */
  lemma AddReplaces(info: BuildInfo, name: string, a: int, b: int)
    ensures AddBlockRequirement(AddBlockRequirement(info, name, a), name, b) == AddBlockRequirement(info, name, b)
  {
  }

  /** `getFormattedTime`: under a minute, `"<s> seconds"`; otherwise whole minutes and
      the remaining seconds, `"<m> min <s> sec"`. Both numbers are written in ASCII
      digits; for the long form that is the output of `String.format` under a default
      locale with ASCII digits only. */
  function FormattedTime(seconds: int): (r: string)
    ensures EndsWith(r, " seconds") <==> seconds < 60
  {
    if seconds < 60 then
      var r := IntToString(seconds) + " seconds";
      assert r[|r| - 8..] == " seconds";
      r
    else
      var r := NatToString(seconds / 60) + " min " + NatToString(seconds % 60) + " sec";
      assert r[|r| - 1] == 'c';
      r
  }

  /** The two shapes a formatted time takes: a count of seconds, or whole minutes and
      the seconds left over. */
  datatype TimeForm = Short(total: int) | Long(minutes: nat, remainder: nat)

  /** The duration a form stands for. */
  function Duration(f: TimeForm): int
  {
    match f
    case Short(v) => v
    case Long(m, r) => 60 * m + r
  }

  /** Read a formatted time back as the form it is written in and the numbers in its
      fields. Numerals are read only as Java writes them, without leading zeros and
      without `-0`. */
  function ParseTime(t: string): Option<TimeForm>
  {
    if EndsWith(t, " seconds") then ParseShort(t[..|t| - 8])
    else if EndsWith(t, " sec") then ParseLong(t[..|t| - 4])
    else None
  }

  /** The possibly negative number in front of `" seconds"`. */
  function ParseShort(d: string): Option<TimeForm>
  {
    if Canonical(d) then Some(Short(DigitsValue(d)))
    else if |d| > 1 && d[0] == '-' && d[1] != '0' && Canonical(d[1..]) then Some(Short(-(DigitsValue(d[1..]) as int)))
    else None
  }

  /** The `"<m> min <s>"` in front of `" sec"`. */
  function ParseLong(body: string): Option<TimeForm>
  {
    var k := DigitRun(body);
    if k + 5 <= |body| && body[k..k + 5] == " min " && Canonical(body[..k]) && Canonical(body[k + 5..])
    then Some(Long(DigitsValue(body[..k]), DigitsValue(body[k + 5..])))
    else None
  }

  /** A short form's numeral reads back as the number it renders. */
  lemma ParseShortRendered(v: int)
    ensures ParseShort(IntToString(v)) == Some(Short(v))
  {
    if v < 0 {
      var e := NatToString(-v);
      var d := "-" + e;
      assert d == IntToString(v);
      NatToStringCanonical(-v);
      NatToStringRoundTrip(-v);
      assert d[1..] == e && d[1] == e[0] != '0';
      assert !IsDigit(d[0]);
      assert !Canonical(d);
    } else {
      NatToStringCanonical(v);
      NatToStringRoundTrip(v);
    }
  }

  /** Under a minute the text is the short form of the duration. */
  lemma ShortTimeRoundTrip(seconds: int)
    requires seconds < 60
    ensures ParseTime(FormattedTime(seconds)) == Some(Short(seconds))
  {
    var t := FormattedTime(seconds);
    var d := IntToString(seconds);
    assert t == d + " seconds";
    assert t[..|t| - 8] == d;
    ParseShortRendered(seconds);
  }

  /** Two numerals joined by `" min "` read back as their values. */
  lemma ParseLongFields(m: string, r: string)
    requires Canonical(m) && Canonical(r)
    ensures ParseLong(m + " min " + r) == Some(Long(DigitsValue(m), DigitsValue(r)))
  {
    var body := m + " min " + r;
    assert body == m + (" min " + r);
    DigitRunStopsAt(m, " min " + r);
    var k := DigitRun(body);
    assert k == |m| && k + 5 <= |body|;
    assert body[k..k + 5] == " min ";
    assert body[..k] == m;
    assert body[k + 5..] == r;
  }

  /** The long form reads back as its two fields. */
  lemma ParseLongForm(m: string, r: string)
    requires Canonical(m) && Canonical(r)
    ensures ParseTime(m + " min " + r + " sec") == Some(Long(DigitsValue(m), DigitsValue(r)))
  {
    var t := m + " min " + r + " sec";
    assert !EndsWith(t, " seconds") by {
      assert t[|t| - 1] == 'c';
    }
    assert t[|t| - 4..] == " sec";
    assert t[..|t| - 4] == m + " min " + r;
    assert ParseTime(t) == ParseLong(m + " min " + r);
    ParseLongFields(m, r);
  }

  /** Rendered minutes and seconds read back as those numbers. */
  lemma LongFieldsRoundTrip(q: nat, rem: nat)
    ensures ParseTime(NatToString(q) + " min " + NatToString(rem) + " sec") == Some(Long(q, rem))
  {
    NatToStringCanonical(q);
    NatToStringCanonical(rem);
    NatToStringRoundTrip(q);
    NatToStringRoundTrip(rem);
    ParseLongForm(NatToString(q), NatToString(rem));
  }

  /** From a minute on the text is the long form: the whole minutes, and the seconds
      left over, which are below 60. */
  lemma LongTimeRoundTrip(seconds: int)
    requires seconds >= 60
    ensures ParseTime(FormattedTime(seconds)) == Some(Long(seconds / 60, seconds % 60))
    ensures seconds / 60 >= 1 && seconds % 60 < 60
  {
    LongFieldsRoundTrip(seconds / 60, seconds % 60);
  }

  /** Every duration's text reads back as the form the 60-second cutoff picks, and
      that form stands for the duration. */
  lemma FormattedTimeRoundTrip(seconds: int)
    ensures ParseTime(FormattedTime(seconds)) == Some(if seconds < 60 then Short(seconds) else Long(seconds / 60, seconds % 60))
    ensures Duration(ParseTime(FormattedTime(seconds)).value) == seconds
  {
    if seconds < 60 {
      ShortTimeRoundTrip(seconds);
    } else {
      LongTimeRoundTrip(seconds);
    }
  }

  /** A short form is the rendering of its number. */
  lemma ParseShortExact(d: string)
    requires ParseShort(d).Some?
    ensures d == IntToString(ParseShort(d).value.total)
  {
    if Canonical(d) {
      CanonicalIsRendering(d);
    } else {
      var e := d[1..];
      LeadingDigitPositive(e);
      CanonicalIsRendering(e);
      assert d == "-" + e;
    }
  }

  /** A long form is the rendering of its two numbers. */
  lemma ParseLongExact(body: string)
    requires ParseLong(body).Some?
    ensures body == NatToString(ParseLong(body).value.minutes) + " min " + NatToString(ParseLong(body).value.remainder)
  {
    var k := DigitRun(body);
    CanonicalIsRendering(body[..k]);
    CanonicalIsRendering(body[k + 5..]);
    assert body == body[..k] + body[k..k + 5] + body[k + 5..];
  }

  /** The reader is exact: two texts that read as the same form are the same text.
      With the round trip, `FormattedTime(s)` is the only text that reads as its form. */
  lemma ParseTimeInjective(t: string, t': string)
    requires ParseTime(t).Some? && ParseTime(t) == ParseTime(t')
    ensures t == t'
  {
    var f := ParseTime(t).value;
    assert t == t[..|t| - 4] + t[|t| - 4..];
    assert t' == t'[..|t'| - 4] + t'[|t'| - 4..];
    if f.Short? {
      assert EndsWith(t, " seconds") && EndsWith(t', " seconds");
      ParseShortExact(t[..|t| - 8]);
      ParseShortExact(t'[..|t'| - 8]);
      assert t == t[..|t| - 8] + t[|t| - 8..];
      assert t' == t'[..|t'| - 8] + t'[|t'| - 8..];
    } else {
      assert !EndsWith(t, " seconds") && !EndsWith(t', " seconds");
      ParseLongExact(t[..|t| - 4]);
      ParseLongExact(t'[..|t'| - 4]);
    }
  }
}
