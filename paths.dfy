/** The two pieces of `pathlib` the program uses on POSIX paths: the
    `suffix` of the final path component and `with_suffix`, and from them
    the derivation of the intermediate WAV path from the requested output
    path.  A path is its string in `pathlib`'s normal form: components
    separated by single `/`, no trailing `/`, no `.` components. */
module Paths {
  import opened Results
  import opened Text

  /** Index where the final component starts: just after the last `/`. */
  function NameStart(p: string): (k: nat)
    ensures k <= |p|
    ensures forall i :: k <= i < |p| ==> p[i] != '/'
    ensures k == 0 || p[k - 1] == '/'
  {
    if p == [] then 0
    else if p[|p| - 1] == '/' then |p|
    else NameStart(p[..|p| - 1])
  }

  /** Everything before the final component, with its trailing `/`. */
  function Parent(p: string): string {
    p[..NameStart(p)]
  }

  /** `PurePath.name`: the final component. */
  function Name(p: string): string {
    p[NameStart(p)..]
  }

  /** `str.rfind(c)`: the last index holding `c`, or -1. */
  function LastIndexOf(s: string, c: char): (i: int)
    ensures -1 <= i < |s|
    ensures i >= 0 ==> s[i] == c
    ensures forall j :: i < j < |s| ==> s[j] != c
  {
    if s == [] then -1
    else if s[|s| - 1] == c then |s| - 1
    else LastIndexOf(s[..|s| - 1], c)
  }

  /** The suffix of a component name: from its last `.` to the end, when
      that dot is neither its first nor its last character; else "".  So
      `"a.tar.gz"` has `".gz"`, `".bashrc"` and `"foo."` have "". */
  function NameSuffix(name: string): (x: string)
    ensures x == "" || (2 <= |x| < |name| && x[0] == '.')
    ensures x == name[|name| - |x|..]
    ensures forall j :: 1 <= j < |x| ==> x[j] != '.'
  {
    var i := LastIndexOf(name, '.');
    if 0 < i < |name| - 1 then name[i..] else ""
  }

  /** `PurePath.suffix`. */
  function Suffix(p: string): string {
    NameSuffix(Name(p))
  }

  /** `PurePath.stem` of a name: the name without its suffix. */
  function Stem(name: string): string {
    name[..|name| - |NameSuffix(name)|]
  }

  /** A suffix as the program compares them: lower-cased. */
  function LowerSuffix(p: string): string {
    Lower(Suffix(p))
  }

  /** What `with_suffix` accepts: "" or a dot followed by something, without `/`. */
  predicate ValidSuffix(suffix: string) {
    '/' !in suffix && (suffix == "" || (suffix[0] == '.' && suffix != "."))
  }

  /** Why `with_suffix` raises `ValueError`. */
  datatype PathError = InvalidSuffix | EmptyName

  /** `PurePath.with_suffix(suffix)`: the same path with the suffix of its
      final component replaced by `suffix` (appended when there is none). */
  function WithSuffix(p: string, suffix: string): Result<string, PathError> {
    if !ValidSuffix(suffix) then Err(InvalidSuffix)
    else if Name(p) == "" then Err(EmptyName)
    else Ok(Parent(p) + (Stem(Name(p)) + suffix))
  }

  /** A path is split back into the directory and name it was built from. */
  lemma NameOfJoined(dir: string, name: string)
    requires dir == "" || dir[|dir| - 1] == '/'
    requires '/' !in name
    ensures Parent(dir + name) == dir && Name(dir + name) == name
  {
    var p := dir + name;
    assert dir != "" ==> p[|dir| - 1] == '/';
    assert forall j :: |dir| <= j < |p| ==> p[j] == name[j - |dir|];
    assert NameStart(p) == |dir|;
    assert p[..|dir|] == dir && p[|dir|..] == name;
  }

  /** A name made of a non-empty stem and a one-dot extension has that extension as its suffix. */
  lemma SuffixOfExtended(stem: string, ext: string)
    requires |stem| > 0 && |ext| >= 2 && ext[0] == '.'
    requires forall j :: 1 <= j < |ext| ==> ext[j] != '.'
    ensures NameSuffix(stem + ext) == ext
    ensures Stem(stem + ext) == stem
  {
    var name := stem + ext;
    var i := LastIndexOf(name, '.');
    assert name[|stem|] == '.';
    assert forall j :: |stem| < j < |name| ==> name[j] == ext[j - |stem|];
    assert i == |stem|;
    assert name[i..] == ext;
    assert name[..|stem|] == stem;
  }

  lemma NoSlashConcat(a: string, b: string)
    requires '/' !in a && '/' !in b
    ensures '/' !in a + b
  {
  }

  lemma StemHasNoSlash(p: string)
    ensures '/' !in Stem(Name(p))
  {
    var name := Name(p);
    assert forall j :: 0 <= j < |name| ==> name[j] == p[NameStart(p) + j];
    assert forall j :: 0 <= j < |Stem(name)| ==> Stem(name)[j] == name[j];
  }

  /** A directory joined with a stem and a one-dot extension splits back
      into that directory, that extension and that stem. */
  lemma JoinedWithExtension(dir: string, stem: string, ext: string)
    requires dir == "" || dir[|dir| - 1] == '/'
    requires '/' !in stem && '/' !in ext && |stem| > 0
    requires |ext| >= 2 && ext[0] == '.'
    requires forall j :: 1 <= j < |ext| ==> ext[j] != '.'
    ensures Parent(dir + (stem + ext)) == dir
    ensures Suffix(dir + (stem + ext)) == ext
    ensures Stem(Name(dir + (stem + ext))) == stem
  {
    NoSlashConcat(stem, ext);
    NameOfJoined(dir, stem + ext);
    SuffixOfExtended(stem, ext);
  }

  /** `with_suffix` with a one-dot extension succeeds exactly on a path with a
      non-empty name; it keeps the directory and the stem and gives the new
      path that extension as its suffix. */
  lemma WithSuffixLaw(p: string, ext: string)
    requires ValidSuffix(ext) && |ext| >= 2
    requires forall j :: 1 <= j < |ext| ==> ext[j] != '.'
    ensures WithSuffix(p, ext).Ok? <==> Name(p) != ""
    ensures WithSuffix(p, ext).Ok? ==>
      var q := WithSuffix(p, ext).value;
      Parent(q) == Parent(p) && Suffix(q) == ext && Stem(Name(q)) == Stem(Name(p))
  {
    if Name(p) != "" {
      StemHasNoSlash(p);
      JoinedWithExtension(Parent(p), Stem(Name(p)), ext);
    }
  }

  /** The extension the speech engine always writes. */
  const WavSuffix: string := ".wav"

  /** The intermediate WAV path: the output path itself when its suffix is
      `.wav` in any case, otherwise the output path with its suffix replaced
      by `.wav`. */
  function IntermediateWav(out: string): Result<string, PathError> {
    if LowerSuffix(out) == WavSuffix then Ok(out) else WithSuffix(out, WavSuffix)
  }

  /** The derivation fails only on an output path with an empty name.  When
      it succeeds, the WAV path lies in the output's directory, has a suffix
      equal to `.wav` ignoring case, and is the output path itself exactly
      when the output's suffix already is `.wav` ignoring case. */
  lemma IntermediateWavLaw(out: string)
    ensures IntermediateWav(out).Err? <==> Name(out) == ""
    ensures IntermediateWav(out).Ok? ==>
      var wav := IntermediateWav(out).value;
      && Parent(wav) == Parent(out)
      && LowerSuffix(wav) == WavSuffix
      && (wav == out <==> LowerSuffix(out) == WavSuffix)
  {
    if LowerSuffix(out) != WavSuffix {
      WithSuffixLaw(out, WavSuffix);
      if Name(out) != "" {
        var wav := WithSuffix(out, WavSuffix).value;
        LowerOfWav();
        assert LowerSuffix(wav) == WavSuffix;
      }
    }
  }

  lemma LowerOfWav()
    ensures Lower(WavSuffix) == WavSuffix
  {
    assert LowerChar('.') == '.' && LowerChar('w') == 'w' && LowerChar('a') == 'a' && LowerChar('v') == 'v';
  }

  /** Deriving the WAV path from a derived WAV path changes nothing. */
  lemma IntermediateWavIdempotent(out: string)
    requires IntermediateWav(out).Ok?
    ensures IntermediateWav(IntermediateWav(out).value) == IntermediateWav(out)
  {
    IntermediateWavLaw(out);
  }

  /** The edge of a name ending in a dot: `"foo."` has no suffix, so its WAV
      path appends the extension after the dot. */
  lemma TrailingDotEdge()
    ensures Suffix("out/foo.") == ""
    ensures IntermediateWav("out/foo.") == Ok("out/foo..wav")
  {
    assert '/' !in "foo.";
    NameOfJoined("out/", "foo.");
    assert "out/" + "foo." == "out/foo.";
    assert "out/" + ("foo." + ".wav") == "out/foo..wav";
    assert "foo."[3] == '.';
    assert LastIndexOf("foo.", '.') == 3;
    assert Stem("foo.") == "foo.";
    assert LowerSuffix("out/foo.") == "";
    assert ValidSuffix(WavSuffix);
  }
}
