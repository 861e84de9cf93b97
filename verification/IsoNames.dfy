/**
  Names of shared boot ISOs: parseImageURL, SharedISOResourceName and sanitizeDNS1123 of
  internal/machine/vm/shared_iso.go. Case folding is that of ASCII.
*/
module IsoNames {
  import opened Wrappers
  import opened Objects
  import opened Strings

  // ---- sanitizeDNS1123 ----

  predicate Alphanumeric(c: char) { 'a' <= c <= 'z' || '0' <= c <= '9' }
  predicate Kept(c: char) { Alphanumeric(c) || c == '.' }

  /** Lower-case, with every character outside [a-z0-9.] replaced by a dash. */
  function Dashed(name: string): (r: string)
    ensures |r| == |name|
  {
    var low := ToLower(name);
    seq(|low|, i requires 0 <= i < |low| => if Kept(low[i]) then low[i] else '-')
  }

  /** Each run of dashes becomes one dash. */
  function Collapse(s: string): (r: string)
    ensures s != "" ==> r != "" && r[0] == s[0]
  {
    if s == "" then ""
    else if |s| >= 2 && s[0] == '-' && s[1] == '-' then Collapse(s[1..])
    else [s[0]] + Collapse(s[1..])
  }

  function Sanitized(name: string): (r: string)
    ensures r != ""
  {
    var out := Trim(Collapse(Dashed(name)), {'-', '.'});
    if out == "" then "bootiso" else out
  }

  lemma {:induction false} CollapseAppend(s: string, c: char)
    ensures Collapse(s + [c]) == if c == '-' && s != "" && s[|s| - 1] == '-' then Collapse(s) else Collapse(s) + [c]
    ensures s != "" ==> Collapse(s)[|Collapse(s)| - 1] == s[|s| - 1]
  {
    if s == "" {
    } else {
      assert (s + [c])[1..] == s[1..] + [c];
      CollapseAppend(s[1..], c);
    }
  }

  /** The builder loop with its `lastDash` flag computes map, collapse, trim. */
  method SanitizeDNS1123(name: string) returns (out: string)
    ensures out == Sanitized(name)
  {
    var low := ToLower(name);
    ghost var mapped := Dashed(name);
    var b := "";
    var lastDash := false;
    for i := 0 to |low|
      invariant b == Collapse(mapped[..i])
      invariant lastDash <==> i > 0 && mapped[i - 1] == '-'
    {
      assert mapped[..i + 1] == mapped[..i] + [mapped[i]];
      CollapseAppend(mapped[..i], mapped[i]);
      if Kept(low[i]) {
        b := b + [low[i]];
        lastDash := false;
      } else if !lastDash {
        b := b + "-";
        lastDash := true;
      }
    }
    assert mapped[..|low|] == mapped;
    out := Trim(b, {'-', '.'});
    if out == "" {
      out := "bootiso";
    }
  }

  predicate NoDoubleDash(s: string) {
    forall i :: 0 <= i < |s| - 1 ==> !(s[i] == '-' && s[i + 1] == '-')
  }

  lemma {:induction false} CollapseHasNoRuns(s: string)
    ensures NoDoubleDash(Collapse(s))
    ensures forall c :: c in Collapse(s) ==> c in s
  {
    if s != "" {
      CollapseHasNoRuns(s[1..]);
      var r := Collapse(s[1..]);
      if |s| >= 2 && !(s[0] == '-' && s[1] == '-') {
        assert Collapse(s) == [s[0]] + r && r[0] == s[1];
        assert forall i :: 0 < i < |Collapse(s)| - 1 ==> Collapse(s)[i] == r[i - 1] && Collapse(s)[i + 1] == r[i];
      }
    }
  }

  lemma SliceHasNoRuns(s: string, lo: nat, hi: nat)
    requires NoDoubleDash(s) && lo <= hi <= |s|
    ensures NoDoubleDash(s[lo..hi])
  {
    var t := s[lo..hi];
    forall i | 0 <= i < |t| - 1 ensures !(t[i] == '-' && t[i + 1] == '-') {
      assert t[i] == s[lo + i] && t[i + 1] == s[lo + i + 1];
    }
  }

  lemma TrimHasNoRuns(s: string, cut: set<char>)
    requires NoDoubleDash(s)
    ensures NoDoubleDash(Trim(s, cut))
  {
    var lo, hi := TrimIsSlice(s, cut);
    SliceHasNoRuns(s, lo, hi);
  }

  /** What a sanitised name looks like. */
  predicate CleanName(s: string) {
    && s != ""
    && (forall c :: c in s ==> Kept(c) || c == '-')
    && Alphanumeric(s[0]) && Alphanumeric(s[|s| - 1])
    && NoDoubleDash(s)
  }

  lemma SanitizedIsClean(name: string)
    ensures CleanName(Sanitized(name))
    ensures var s := Sanitized(name);
            && (forall c :: c in s ==> 'a' <= c <= 'z' || '0' <= c <= '9' || c == '-' || c == '.')
            && s[0] != '-' && s[0] != '.' && s[|s| - 1] != '-' && s[|s| - 1] != '.'
            && (forall i :: 0 <= i < |s| - 1 ==> !(s[i] == '-' && s[i + 1] == '-'))
  {
    var collapsed := Collapse(Dashed(name));
    CollapseHasNoRuns(Dashed(name));
    TrimHasNoRuns(collapsed, {'-', '.'});
    var out := Trim(collapsed, {'-', '.'});
    var lo, hi := TrimIsSlice(collapsed, {'-', '.'});
    assert forall c :: c in out ==> c in collapsed;
    assert forall c :: c in Dashed(name) ==> Kept(c) || c == '-';
    if out != "" {
      assert out[0] in out && out[|out| - 1] in out;
    }
  }

  lemma {:induction false} CollapseFixes(s: string)
    requires NoDoubleDash(s)
    ensures Collapse(s) == s
  {
    if s != "" {
      assert forall i :: 0 <= i < |s[1..]| ==> s[1..][i] == s[i + 1];
      CollapseFixes(s[1..]);
    }
  }

  lemma DashedFixes(s: string)
    requires forall c :: c in s ==> Kept(c) || c == '-'
    ensures Dashed(s) == s
  {
    forall i | 0 <= i < |s| ensures Dashed(s)[i] == s[i] { assert s[i] in s; }
  }

  lemma CleanIsFixed(s: string)
    requires CleanName(s)
    ensures Sanitized(s) == s
  {
    DashedFixes(s);
    CollapseFixes(s);
    TrimFixes(s, {'-', '.'});
  }

  /** Sanitising leaves exactly the clean names alone, so it is idempotent. */
  lemma FixpointIffClean(s: string)
    ensures Sanitized(s) == s <==> CleanName(s)
    ensures CleanName(s) <==>
              && s != "" && (forall c :: c in s ==> 'a' <= c <= 'z' || '0' <= c <= '9' || c == '-' || c == '.')
              && s[0] != '-' && s[0] != '.' && s[|s| - 1] != '-' && s[|s| - 1] != '.'
              && (forall i :: 0 <= i < |s| - 1 ==> !(s[i] == '-' && s[i + 1] == '-'))
  {
    if s != "" { assert s[0] in s && s[|s| - 1] in s; }
    if CleanName(s) { CleanIsFixed(s); } else { SanitizedIsClean(s); }
  }

  lemma SanitizeIdempotent(name: string)
    ensures Sanitized(Sanitized(name)) == Sanitized(name)
  {
    SanitizedIsClean(name);
    FixpointIffClean(Sanitized(name));
  }

  // ---- parseImageURL ----

  const KNOWN_ARCHES := {"amd64", "arm64", "x86_64"}
  const IMAGE_EXTENSIONS := [".iso", ".img", ".raw", ".qcow2", ".xz", ".gz", ".zst"]

  predicate LooksLikeVersion(s: string) {
    s != "" && ('0' <= s[0] <= '9' || (|s| >= 2 && s[0] == 'v' && '0' <= s[1] <= '9'))
  }

  datatype ImageParts = ImageParts(version: string, variant: string, arch: string)

  /** `stem` is "<variant>-<arch>" with the arch after the last dash. */
  predicate EndsInArch(stem: string, cut: nat) {
    cut < |stem| && stem[cut] == '-' && '-' !in stem[cut + 1..] && stem[cut + 1..] in KNOWN_ARCHES
  }

  function StemParts(stem: string): (string, string) {
    if exists cut :: 0 <= cut < |stem| && EndsInArch(stem, cut) then
      UniqueCut(stem);
      var cut :| 0 <= cut < |stem| && EndsInArch(stem, cut);
      (stem[..cut], stem[cut + 1..])
    else (stem, "")
  }

  lemma SameCut(s: string, a: nat, b: nat)
    requires a < |s| && b < |s| && s[a] == s[b] == '-' && '-' !in s[a + 1..] && '-' !in s[b + 1..]
    ensures a == b
  {
    InSlice(s, a + 1, b, |s|);
    InSlice(s, b + 1, a, |s|);
  }

  lemma UniqueCut(stem: string)
    ensures forall a, b :: 0 <= a < |stem| && 0 <= b < |stem| && EndsInArch(stem, a) && EndsInArch(stem, b) ==> a == b
  {
    forall a, b | 0 <= a < |stem| && 0 <= b < |stem| && EndsInArch(stem, a) && EndsInArch(stem, b) ensures a == b {
      SameCut(stem, a, b);
    }
  }

  function FromSegments(segments: seq<string>): ImageParts
    requires |segments| >= 1
  {
    var parts := StemParts(Before(segments[|segments| - 1], '.'));
    var candidate := if |segments| >= 2 then segments[|segments| - 2] else "";
    ImageParts(if LooksLikeVersion(candidate) then candidate else "", parts.0, parts.1)
  }

  function Parsed(path: string): ImageParts {
    if path == "" then ImageParts("", "", "") else FromSegments(Split(Trim(path, {'/'}), '/'))
  }

  lemma StripKeepsStem(s: string, ext: string)
    requires ext != "" && ext[0] == '.'
    ensures Before(TrimSuffix(s, ext), '.') == Before(s, '.')
  {
    var t := TrimSuffix(s, ext);
    var i := IndexOf(s, '.');
    if |t| < |s| {
      assert s[|t|] == '.' by { assert s[|t|] == s[|s| - |ext|..][0]; }
      assert i <= |t|;
      assert t[..i] == s[..i];
      IndexOfUnique(t, '.', i);
    }
  }

  /** Stripping the known extensions one after the other and then cutting at a dot is cutting at the first dot. */
  method Stem(segment: string) returns (stem: string)
    ensures stem == Before(segment, '.')
  {
    stem := segment;
    for i := 0 to |IMAGE_EXTENSIONS|
      invariant Before(stem, '.') == Before(segment, '.')
    {
      StripKeepsStem(stem, IMAGE_EXTENSIONS[i]);
      stem := TrimSuffix(stem, IMAGE_EXTENSIONS[i]);
    }
    var dot := IndexOf(stem, '.');
    if dot < |stem| {
      stem := stem[..dot];
    }
  }

  lemma {:induction false} SplitLast(s: string, c: char)
    ensures c !in s ==> Split(s, c) == [s]
    ensures c in s ==> exists cut :: 0 <= cut < |s| && s[cut] == c && c !in s[cut + 1..] && Split(s, c) == Split(s[..cut], c) + [s[cut + 1..]]
    decreases |s|
  {
    if c in s {
      var cut := LastIndex(s, c);
      assert s == s[..cut] + [c] + s[cut + 1..];
      SplitAppend(s[..cut], c, s[cut + 1..]);
    } else {
      IndexOfUnique(s, c, |s|);
    }
  }

  lemma {:induction false} LastIndex(s: string, c: char) returns (cut: nat)
    requires c in s
    ensures cut < |s| && s[cut] == c && c !in s[cut + 1..]
  {
    if s[|s| - 1] == c {
      cut := |s| - 1;
    } else {
      cut := LastIndex(s[..|s| - 1], c);
      assert s[cut + 1..] == s[..|s| - 1][cut + 1..] + [s[|s| - 1]];
    }
  }

  lemma StemPartsOf(stem: string, cut: nat)
    requires cut < |stem| && stem[cut] == '-' && '-' !in stem[cut + 1..]
    ensures StemParts(stem) == if stem[cut + 1..] in KNOWN_ARCHES then (stem[..cut], stem[cut + 1..]) else (stem, "")
  {
    UniqueCut(stem);
    if stem[cut + 1..] in KNOWN_ARCHES {
      assert EndsInArch(stem, cut);
    } else {
      forall a | 0 <= a < |stem| ensures !EndsInArch(stem, a) {
        if EndsInArch(stem, a) { SameCut(stem, a, cut); }
      }
    }
  }

  lemma SplitStem(stem: string)
    ensures var tokens := Split(stem, '-'); var n := |tokens|;
            StemParts(stem) == if n > 1 && tokens[n - 1] in KNOWN_ARCHES then (Join(tokens[..n - 1], '-'), tokens[n - 1]) else (stem, "")
  {
    SplitLast(stem, '-');
    var tokens := Split(stem, '-');
    if '-' in stem {
      var cut :| 0 <= cut < |stem| && stem[cut] == '-' && '-' !in stem[cut + 1..] && tokens == Split(stem[..cut], '-') + [stem[cut + 1..]];
      assert tokens[..|tokens| - 1] == Split(stem[..cut], '-');
      JoinSplit(stem[..cut], '-');
      StemPartsOf(stem, cut);
    } else {
      forall a | 0 <= a < |stem| ensures !EndsInArch(stem, a) { assert stem[a] in stem; }
    }
  }

  /** `path` is the path url.Parse found, None when it failed. */
  method ParseImageURL(path: Option<string>) returns (version: string, variant: string, arch: string)
    ensures ImageParts(version, variant, arch) == Parsed(if path.Some? then path.value else "")
  {
    version, variant, arch := "", "", "";
    if path.None? || path.value == "" {
      return;
    }
    var segments := Split(Trim(path.value, {'/'}), '/');
    var filename := Stem(segments[|segments| - 1]);
    SplitStem(filename);
    var tokens := Split(filename, '-');
    if |tokens| > 1 {
      if tokens[|tokens| - 1] in KNOWN_ARCHES {
        arch := tokens[|tokens| - 1];
        variant := Join(tokens[..|tokens| - 1], '-');
      } else {
        variant := filename;
      }
    } else {
      variant := filename;
    }
    if |segments| >= 2 {
      var candidate := segments[|segments| - 2];
      if LooksLikeVersion(candidate) {
        version := candidate;
      }
    }
  }

  lemma TrimPath(x: string, y: string)
    requires y != "" && y[0] != '/' && y[|y| - 1] != '/'
    ensures Trim(x + y, {'/'}) == TrimLeft(x, {'/'}) + y
  {
    hide TrimLeft, TrimRight;
    TrimLeftStops(x, y, {'/'});
    var t := TrimLeft(x, {'/'}) + y;
    assert t[|t| - 1] == y[|y| - 1];
    TrimRightFixes(t, {'/'});
  }

  lemma SplitTrimmedBase(x: string, version: string)
    requires '/' !in version && (x == "" || x[|x| - 1] == '/')
    ensures var segs := Split(x + version, '/'); segs[|segs| - 1] == version
  {
    if x == "" {
      assert x + version == version;
      SplitWhole(version, '/');
    } else {
      assert x + version == x[..|x| - 1] + ['/'] + version;
      SplitAppend(x[..|x| - 1], '/', version);
    }
  }

  lemma SplitTail(x: string, version: string, file: string)
    requires '/' !in version && '/' !in file && (x == "" || x[|x| - 1] == '/')
    ensures var segs := Split(x + (version + ['/'] + file), '/');
            |segs| >= 2 && segs[|segs| - 2] == version && segs[|segs| - 1] == file
  {
    assert x + (version + ['/'] + file) == (x + version) + ['/'] + file;
    SplitAppend(x + version, '/', file);
    SplitTrimmedBase(x, version);
  }

  lemma NoSlashAtEnds(version: string, file: string)
    requires version != "" && '/' !in version && file != "" && '/' !in file
    ensures var y := version + ['/'] + file; y[0] != '/' && y[|y| - 1] != '/'
  {
    assert version[0] in version && file[|file| - 1] in file;
  }

  function ImagePath(base: string, version: string, file: string): string {
    (base + "/") + (version + ['/'] + file)
  }

  /** In front of the file name, whatever is left of the base, stands the version. */
  lemma LastSegments(base: string, version: string, file: string)
    requires version != "" && '/' !in version && file != "" && '/' !in file
    ensures var segs := Split(Trim(ImagePath(base, version, file), {'/'}), '/');
            |segs| >= 2 && segs[|segs| - 2] == version && segs[|segs| - 1] == file
  {
    NoSlashAtEnds(version, file);
    TrimPath(base + "/", version + ['/'] + file);
    TrimLeftEnds(base + "/", '/');
    SplitTail(TrimLeft(base + "/", {'/'}), version, file);
  }

  lemma TrimLeftEnds(s: string, c: char)
    requires s != "" && s[|s| - 1] == c
    ensures TrimLeft(s, {c}) != "" ==> TrimLeft(s, {c})[|TrimLeft(s, {c})| - 1] == c
  {
  }

  lemma ArchIsPlain(arch: string)
    requires arch in KNOWN_ARCHES
    ensures '-' !in arch && '.' !in arch && '/' !in arch
  {
  }

  lemma StemOfFile(variant: string, arch: string, tail: string)
    requires '.' !in variant && arch in KNOWN_ARCHES && tail != "" && tail[0] == '.'
    ensures StemParts(Before(variant + "-" + arch + tail, '.')) == (variant, arch)
  {
    var stem := variant + "-" + arch;
    var file := stem + tail;
    ArchIsPlain(arch);
    assert file[..|stem|] == stem && file[|stem|] == '.';
    IndexOfUnique(file, '.', |stem|);
    assert stem[|variant| + 1..] == arch && stem[..|variant|] == variant;
    StemPartsOf(stem, |variant|);
  }

  lemma ParsedFrom(base: string, version: string, file: string)
    requires LooksLikeVersion(version) && '/' !in version && file != "" && '/' !in file
    ensures var parts := StemParts(Before(file, '.'));
            Parsed(ImagePath(base, version, file)) == ImageParts(version, parts.0, parts.1)
  {
    var path := ImagePath(base, version, file);
    LastSegments(base, version, file);
    assert |path| > 0;
    assert Parsed(path) == FromSegments(Split(Trim(path, {'/'}), '/'));
  }

  /** The parser recovers version, variant and architecture from every conventional image path. */
  lemma ParseInvertsPrint(base: string, version: string, variant: string, arch: string, tail: string)
    requires LooksLikeVersion(version) && '/' !in version
    requires '.' !in variant && '/' !in variant
    requires arch in {"amd64", "arm64", "x86_64"}
    requires tail != "" && tail[0] == '.' && '/' !in tail
    ensures Parsed(ImagePath(base, version, variant + "-" + arch + tail)) == ImageParts(version, variant, arch)
  {
    var file := variant + "-" + arch + tail;
    assert '/' !in file by { ArchIsPlain(arch); }
    ParsedFrom(base, version, file);
    StemOfFile(variant, arch, tail);
  }

  // ---- SharedISOResourceName ----

  function Append(parts: seq<string>, p: string): seq<string> {
    if p != "" then parts + [p] else parts
  }

  function SharedISOResourceName(os: OSSpec): (name: string)
    ensures name != ""
  {
    var url := Parsed(if os.imagePath.Some? then os.imagePath.value else "");
    var version := if os.version == "" then url.version else os.version;
    var arch := if os.architecture == "" then url.arch else os.architecture;
    var lowered := ToLower(os.distribution);
    var prefix := if lowered != "" then lowered else if url.variant != "" then url.variant else "bootiso";
    var variant := if lowered != "" then url.variant else "";
    Sanitized(Join(Append(Append(Append([prefix], version), variant), arch), '-'))
  }

  /** The derived name is clean, and sanitising it again changes nothing. */
  lemma SharedNameIsFixpoint(os: OSSpec)
    ensures CleanName(SharedISOResourceName(os))
    ensures Sanitized(SharedISOResourceName(os)) == SharedISOResourceName(os)
  {
    var url := Parsed(if os.imagePath.Some? then os.imagePath.value else "");
    var version := if os.version == "" then url.version else os.version;
    var arch := if os.architecture == "" then url.arch else os.architecture;
    var lowered := ToLower(os.distribution);
    var prefix := if lowered != "" then lowered else if url.variant != "" then url.variant else "bootiso";
    var variant := if lowered != "" then url.variant else "";
    var joined := Join(Append(Append(Append([prefix], version), variant), arch), '-');
    SanitizedIsClean(joined);
    SanitizeIdempotent(joined);
  }

  // ---- what the name says ----

  function Dash(a: string, b: string): string { a + "-" + b }

  lemma JoinTwo(a: string, rest: seq<string>)
    requires rest != []
    ensures Join([a] + rest, '-') == Dash(a, Join(rest, '-'))
  {
    assert ([a] + rest)[1..] == rest;
  }

  lemma JoinFour(a: string, b: string, c: string, d: string)
    ensures Join([a, b, c, d], '-') == Dash(a, Dash(b, Dash(c, d)))
    ensures Join([a, b, c], '-') == Dash(a, Dash(b, c))
  {
    JoinTwo(a, [b, c, d]);
    JoinTwo(b, [c, d]);
    JoinTwo(c, [d]);
    JoinTwo(a, [b, c]);
    JoinTwo(b, [c]);
    assert [a] + [b, c, d] == [a, b, c, d] && [b] + [c, d] == [b, c, d] && [c] + [d] == [c, d];
    assert [a] + [b, c] == [a, b, c] && [b] + [c] == [b, c];
  }

  /** The version, variant and architecture a name is made of: a set spec field wins over what the URL says. */
  predicate Names(os: OSSpec, version: string, variant: string, arch: string) {
    var url := Parsed(if os.imagePath.Some? then os.imagePath.value else "");
    && version == (if os.version != "" then os.version else url.version)
    && arch == (if os.architecture != "" then os.architecture else url.arch)
    && variant == url.variant
  }

  /** With a distribution, the name is "<distribution>-<version>-<variant>-<arch>" as soon as that is a clean name. */
  lemma SharedNameSpellsItsParts(os: OSSpec, version: string, variant: string, arch: string)
    requires Names(os, version, variant, arch) && os.distribution != "" && version != "" && variant != "" && arch != ""
    ensures var text := Dash(ToLower(os.distribution), Dash(version, Dash(variant, arch)));
            CleanName(text) ==> SharedISOResourceName(os) == text
  {
    var d := ToLower(os.distribution);
    assert d != "";
    assert Append(Append(Append([d], version), variant), arch) == [d, version, variant, arch];
    JoinFour(d, version, variant, arch);
    FixpointIffClean(Dash(d, Dash(version, Dash(variant, arch))));
    hide Parsed, Sanitized, CleanName, Join;
  }

  /** Without one the variant leads, or "bootiso" when the URL has none. */
  lemma UndistributedNameSpellsItsParts(os: OSSpec, version: string, variant: string, arch: string)
    requires Names(os, version, variant, arch) && os.distribution == "" && version != "" && arch != ""
    ensures var text := Dash(if variant != "" then variant else "bootiso", Dash(version, arch));
            CleanName(text) ==> SharedISOResourceName(os) == text
  {
    var prefix := if variant != "" then variant else "bootiso";
    assert ToLower(os.distribution) == "";
    assert Append(Append(Append([prefix], version), ""), arch) == [prefix, version, arch];
    JoinFour(prefix, version, arch, "");
    FixpointIffClean(Dash(prefix, Dash(version, arch)));
    hide Parsed, Sanitized, CleanName, Join;
  }

  /** From a conventional image path: what the spec leaves open is what the path says. */
  lemma SharedNameOfImage(os: OSSpec, base: string, version: string, variant: string, arch: string, tail: string)
    requires LooksLikeVersion(version) && '/' !in version && '.' !in variant && '/' !in variant && variant != ""
    requires arch in {"amd64", "arm64", "x86_64"} && tail != "" && tail[0] == '.' && '/' !in tail
    requires os.imagePath == Some(ImagePath(base, version, variant + "-" + arch + tail)) && os.distribution != ""
    ensures var v, a := if os.version != "" then os.version else version, if os.architecture != "" then os.architecture else arch;
            var text := Dash(ToLower(os.distribution), Dash(v, Dash(variant, a)));
            CleanName(text) ==> SharedISOResourceName(os) == text
  {
    ParseInvertsPrint(base, version, variant, arch, tail);
    var v, a := if os.version != "" then os.version else version, if os.architecture != "" then os.architecture else arch;
    SharedNameSpellsItsParts(os, v, variant, a);
    hide Parsed;
  }

  lemma DashInjective(d: string, a: string, b: string, rest: string)
    requires Dash(d, Dash(a, rest)) == Dash(d, Dash(b, rest))
    ensures a == b
  {
    var s := Dash(d, Dash(a, rest));
    assert |a| == |b|;
    assert s[|d| + 1..|d| + 1 + |a|] == a;
    assert Dash(d, Dash(b, rest))[|d| + 1..|d| + 1 + |b|] == b;
  }

  /** Two versions of one image never share a volume. */
  lemma VersionsHaveTheirOwnVolumes(os: OSSpec, v: string, w: string, variant: string, arch: string)
    requires v != "" && w != "" && v != w && os.distribution != "" && variant != "" && arch != ""
    requires Names(os.(version := v), v, variant, arch) && Names(os.(version := w), w, variant, arch)
    requires CleanName(Dash(ToLower(os.distribution), Dash(v, Dash(variant, arch))))
    requires CleanName(Dash(ToLower(os.distribution), Dash(w, Dash(variant, arch))))
    ensures SharedISOResourceName(os.(version := v)) != SharedISOResourceName(os.(version := w))
  {
    SharedNameSpellsItsParts(os.(version := v), v, variant, arch);
    SharedNameSpellsItsParts(os.(version := w), w, variant, arch);
    if Dash(ToLower(os.distribution), Dash(v, Dash(variant, arch))) == Dash(ToLower(os.distribution), Dash(w, Dash(variant, arch))) {
      DashInjective(ToLower(os.distribution), v, w, Dash(variant, arch));
    }
  }

  /** What looks like a version: a digit, or a "v" and a digit, in front. */
  lemma VersionsLookLike(s: string, d: char)
    ensures '0' <= d <= '9' ==> LooksLikeVersion([d] + s) && LooksLikeVersion(['v', d] + s)
    ensures !LooksLikeVersion("") && !LooksLikeVersion("v")
    ensures !('0' <= d <= '9') ==> !LooksLikeVersion(['v', d] + s) && (d != 'v' ==> !LooksLikeVersion([d] + s))
  {
  }
}
