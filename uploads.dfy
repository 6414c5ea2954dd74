/**
 * Uploaded files and the stored paths the handlers build for them. A stored path is
 * relative to the public static root (`/videos/…`, `/uploads/…`, `/images/…`).
 */
module Uploads {
  import opened Wrappers
  import opened Text

  /** An uploaded `File`: its original name and its size in bytes (the bytes are not modelled). */
  datatype Upload = Upload(name: string, size: nat)

  /** The characters `[a-zA-Z0-9.-]` that the filename rule keeps. */
  predicate SafeChar(c: char) {
    ('a' <= c <= 'z') || ('A' <= c <= 'Z') || ('0' <= c <= '9') || c == '.' || c == '-'
  }

  /** `name.replace(/[^a-zA-Z0-9.-]/g, '_')` */
  function Sanitize(name: string): (r: string)
    ensures |r| == |name|
    ensures forall i :: 0 <= i < |name| ==> r[i] == if SafeChar(name[i]) then name[i] else '_'
    decreases |name|
  {
    if name == [] then []
    else [if SafeChar(name[0]) then name[0] else '_'] + Sanitize(name[1..])
  }

  /** Every character of a sanitised name is one the rule keeps or the '_' it substitutes. */
  lemma SanitizeSafe(name: string)
    ensures forall i :: 0 <= i < |Sanitize(name)| ==> SafeChar(Sanitize(name)[i]) || Sanitize(name)[i] == '_'
  {
  }

  /** Sanitising is idempotent. */
  lemma {:induction false} SanitizeIdempotent(name: string)
    ensures Sanitize(Sanitize(name)) == Sanitize(name)
    decreases |name|
  {
    if name != [] {
      SanitizeIdempotent(name[1..]);
      assert Sanitize(name)[1..] == Sanitize(name[1..]);
    }
  }

  /** A name made only of kept characters is left as it is. */
  lemma {:induction false} SanitizeKeepsSafeNames(name: string)
    requires forall i :: 0 <= i < |name| ==> SafeChar(name[i])
    ensures Sanitize(name) == name
    decreases |name|
  {
    if name != [] {
      SanitizeKeepsSafeNames(name[1..]);
    }
  }

  /** The index of the last `c` in `s`, if any. */
  function LastIndex(s: string, c: char): (r: Option<nat>)
    ensures r.Some? ==> r.value < |s| && s[r.value] == c && c !in s[r.value + 1..]
    ensures r.None? ==> c !in s
    decreases |s|
  {
    if |s| == 0 then None
    else if s[|s| - 1] == c then Some(|s| - 1)
    else
      var r := LastIndex(s[..|s| - 1], c);
      assert r.Some? ==> s[r.value + 1..] == s[..|s| - 1][r.value + 1..] + [s[|s| - 1]];
      assert r.None? ==> s == s[..|s| - 1] + [s[|s| - 1]];
      r
  }

  /** `s` without its trailing '/' characters. */
  function TrimSlashes(s: string): (t: string)
    ensures t <= s
    ensures t == "" || t[|t| - 1] != '/'
    ensures forall i :: |t| <= i < |s| ==> s[i] == '/'
    decreases |s|
  {
    if s != [] && s[|s| - 1] == '/' then TrimSlashes(s[..|s| - 1]) else s
  }

  /** A path without '/' has nothing to trim. */
  lemma TrimSlashesKeepsBareNames(s: string)
    ensures '/' !in s ==> TrimSlashes(s) == s
  {
  }

  /**
   * The last component of a path as `path.extname` reads it: what follows the last '/'
   * once trailing '/' characters are dropped.
   */
  function Basename(path: string): (b: string)
    ensures '/' !in b
    ensures var t := TrimSlashes(path); |b| <= |t| && t[|t| - |b|..] == b
    ensures '/' !in path ==> b == path
  {
    TrimSlashesKeepsBareNames(path);
    var t := TrimSlashes(path);
    match LastIndex(t, '/')
    case None => t
    case Some(k) => t[k + 1..]
  }

  /**
   * Node's `path.extname`: in the last path component, from its last '.' to its end; ""
   * when the component has no '.', when that '.' is its first character, and for "..".
   */
  function ExtName(path: string): (ext: string)
    ensures var b := Basename(path); var d := LastIndex(b, '.');
      ext != "" <==> d.Some? && d.value != 0 && b != ".."
    ensures var b := Basename(path); var d := LastIndex(b, '.');
      ext != "" ==> d.Some? && ext == b[d.value..]
    ensures ext == "" || (ext[0] == '.' && '.' !in ext[1..] && '/' !in ext)
    ensures '.' !in path ==> ext == ""
  {
    var b := Basename(path);
    match LastIndex(b, '.')
    case None => ""
    case Some(d) =>
      if d == 0 || b == ".." then ""
      else
        assert b[d..][1..] == b[d + 1..];
        assert forall i :: 0 <= i < |b[d..]| ==> b[d..][i] == b[d + i];
        b[d..]
  }

  /** For a bare file name, the extension runs from its last '.' (when that is not its first character). */
  lemma BareExtName(name: string, d: nat)
    requires '/' !in name && name != ".."
    requires d < |name| && name[d] == '.' && '.' !in name[d + 1..] && d != 0
    ensures ExtName(name) == name[d..]
  {
  }

  lemma ExtNameExamples()
    ensures ExtName("logo.png") == ".png"
  {
    BareExtName("logo.png", 4);
  }

  /** Only the last dot starts the extension. */
  lemma ExtNameLastDot()
    ensures ExtName("archive.tar.gz") == ".gz"
  {
    BareExtName("archive.tar.gz", 11);
  }

  /** A name without a dot, and a dot file, have no extension. */
  lemma ExtNameNone()
    ensures ExtName("README") == ""
    ensures ExtName(".env") == ""
  {
    assert forall i :: 0 <= i < |"README"| ==> "README"[i] != '.';
    assert forall i :: 0 <= i < |".env"| ==> ".env"[i] != '/';
    assert LastIndex(".env", '.') == Some(0);
  }

  /** Trailing slashes do not change the last component. */
  lemma TrimSlashesTrailing(s: string)
    ensures TrimSlashes(s + "/") == TrimSlashes(s)
  {
    assert (s + "/")[..|s|] == s;
  }

  /** A trailing '/' does not change the extension. */
  lemma ExtNameIgnoresTrailingSlash(path: string)
    ensures ExtName(path + "/") == ExtName(path)
  {
    TrimSlashesTrailing(path);
    BasenameOfTrimmed(path);
    BasenameOfTrimmed(path + "/");
  }

  /** Basename depends on the path only through its trimmed form. */
  lemma BasenameOfTrimmed(s: string)
    ensures Basename(s) == Basename(TrimSlashes(s))
  {
    var t := TrimSlashes(s);
    if t != "" {
      assert TrimSlashes(t) == t;
    }
  }

  /** The last component of `dir/name` is `name`, for a non-empty `name` without '/'. */
  lemma BasenameOfPath(dir: string, name: string)
    requires name != [] && '/' !in name
    ensures Basename(dir + "/" + name) == name
  {
    var p := dir + "/" + name;
    assert p[|p| - 1] == name[|name| - 1];
    assert TrimSlashes(p) == p;
    assert p[|dir|] == '/';
    assert p[|dir| + 1..] == name;
  }

  /** Directories in front of a file name do not change its extension. */
  lemma ExtNameOfPath(dir: string, name: string)
    requires name != [] && '/' !in name
    ensures ExtName(dir + "/" + name) == ExtName(name)
  {
    BasenameOfPath(dir, name);
  }

  /** Only the last path component counts: a dot in a directory name is no extension. */
  lemma ExtNameLastComponent()
    ensures ExtName("a.b/c") == ""
  {
    ExtNameOfPath("a.b", "c");
    assert "a.b" + "/" + "c" == "a.b/c";
  }

  /** `Date.now()` as it appears in a file name. */
  function Stamp(now: nat): string {
    NatToString(now)
  }

  /** Mission image: `/images/mission/mission-<ts>-<sanitised name>`. */
  function MissionImagePath(now: nat, name: string): string {
    "/images/mission/mission-" + Stamp(now) + "-" + Sanitize(name)
  }

  /** Hero video from the landing settings form: `/videos/hero-<ts>-<sanitised name>`. */
  function LandingVideoPath(now: nat, name: string): string {
    "/videos/hero-" + Stamp(now) + "-" + Sanitize(name)
  }

  /** Hero video from the hero settings form: `/videos/hero-<ts>-<name>`, name unsanitised. */
  function HeroVideoPath(now: nat, name: string): string {
    "/videos/hero-" + Stamp(now) + "-" + name
  }

  /** The uncompressed upload kept while the transcoder runs. */
  function TempVideoPath(now: nat): string {
    "/uploads/videos/temp-" + Stamp(now) + ".mp4"
  }

  /** The transcoder's output, which becomes the stored hero video. */
  function CompressedVideoPath(now: nat): string {
    "/uploads/videos/hero-" + Stamp(now) + ".mp4"
  }

  /** Logo: `/uploads/logo-<ts><ext>` where ext is the original file's extension. */
  function LogoPath(now: nat, name: string): string {
    "/uploads/logo-" + Stamp(now) + ExtName(name)
  }

  /** Product image from the public products form: `/images/products/product-<ts>-<name>`. */
  function ProductImagePath(now: nat, name: string): string {
    "/images/products/product-" + Stamp(now) + "-" + name
  }

  /** Generic upload under `/uploads`: `/uploads/<ts>-<name>`. */
  function UploadsPath(now: nat, name: string): string {
    "/uploads/" + Stamp(now) + "-" + name
  }

  /** The temporary file and the compressed output never share a path, whatever the two clock readings. */
  lemma TempIsNotCompressed(t: nat, f: nat)
    ensures TempVideoPath(t) != CompressedVideoPath(f)
  {
    assert TempVideoPath(t)[16] == 't';
    assert CompressedVideoPath(f)[16] == 'h';
  }

  /** The two hero-video rules agree on names the filename rule would not change. */
  lemma HeroVideoPathsAgreeOnSafeNames(now: nat, name: string)
    requires forall i :: 0 <= i < |name| ==> SafeChar(name[i])
    ensures LandingVideoPath(now, name) == HeroVideoPath(now, name)
  {
    SanitizeKeepsSafeNames(name);
  }

  /** A logo path ends in the file's extension and carries no other part of the original name. */
  lemma LogoPathShape(now: nat, name: string)
    ensures StartsWith(LogoPath(now, name), "/uploads/logo-" + Stamp(now))
    ensures var p := LogoPath(now, name); var e := ExtName(name); p[|p| - |e|..] == e
  {
    StartsWithConcat("/uploads/logo-" + Stamp(now), ExtName(name));
  }
}
