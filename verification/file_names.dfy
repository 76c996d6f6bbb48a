/** File names of saved structures: the sanitising of a structure name, and the
    listing that turns a file name back into a structure name. */
module FileNames {
  import opened Options
  import opened Text

  /** The characters `[a-zA-Z0-9_-]` a file name may keep. */
  predicate Allowed(ch: char)
  {
    ('a' <= ch <= 'z') || ('A' <= ch <= 'Z') || ('0' <= ch <= '9') || ch == '_' || ch == '-'
  }

  function SanitizeChar(ch: char): char
  {
    if Allowed(ch) then ch else '_'
  }

  /** `sanitizeFileName`: every character (a code point; Dafny's `char` is a Unicode
      scalar value) outside the allowed set becomes `_`. */
  function Sanitize(name: string): (r: string)
    ensures |r| == |name|
    ensures forall i :: 0 <= i < |name| ==> r[i] == SanitizeChar(name[i])
  {
    if name == [] then [] else [SanitizeChar(name[0])] + Sanitize(name[1..])
  }

  /** A sanitised name uses only allowed characters. */
  lemma SanitizedIsAllowed(name: string)
    ensures forall i :: 0 <= i < |Sanitize(name)| ==> Allowed(Sanitize(name)[i])
  {
  }

  /** A name is left as it is exactly when all its characters are allowed. */
  lemma SanitizeFixesExactlyAllowed(name: string)
    ensures Sanitize(name) == name <==> forall i :: 0 <= i < |name| ==> Allowed(name[i])
  {
    if Sanitize(name) == name {
      forall i | 0 <= i < |name| ensures Allowed(name[i]) {
        assert Sanitize(name)[i] == name[i];
      }
    }
  }

  /** Sanitising twice is sanitising once. */
  lemma SanitizeIdempotent(name: string)
    ensures Sanitize(Sanitize(name)) == Sanitize(name)
  {
    SanitizedIsAllowed(name);
    SanitizeFixesExactlyAllowed(Sanitize(name));
  }

  /** Two different structure names can share a file: "a b" and "a_b" both save to `a_b`. */
  lemma SanitizeNotInjective()
    ensures "a b" != "a_b" && Sanitize("a b") == Sanitize("a_b")
  {
    assert "a b"[1] != "a_b"[1];
    assert Sanitize("a b") == "a_b";
    assert Sanitize("a_b") == "a_b";
  }

  /** The file a structure is saved to, relative to the structures directory. */
  function FileName(name: string): string
  {
    Sanitize(name) + ".json"
  }

  /** `listStructures`: a file ending in `.json` is listed under its name without the
      last five characters; any other file is not listed. */
  function ListedName(fileName: string): (r: Option<string>)
    ensures r.Some? <==> EndsWith(fileName, ".json")
    ensures r.Some? ==> r.value + ".json" == fileName
  {
    if EndsWith(fileName, ".json") then Some(fileName[..|fileName| - 5]) else None
  }

  /** A saved structure is listed under its sanitised name. */
  lemma ListedAfterSave(name: string)
    ensures ListedName(FileName(name)) == Some(Sanitize(name))
  {
    var f := FileName(name);
    assert f[|f| - 5..] == ".json";
    assert f[..|f| - 5] == Sanitize(name);
  }
}
