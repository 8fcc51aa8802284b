/**
 * Node's POSIX `path.extname`, the one path function whose result the loader
 * and the spec generator inspect character by character. The other path
 * functions (`dirname`, `relative`, `normalize`, `join`) stay abstract and
 * are passed to the loader as parameters.
 */
module Paths {
  import opened JsValues
  import opened Text

  /** `p` without its trailing `/` characters. */
  function StripTrailingSlashes(p: string): string {
    if p != "" && p[|p| - 1] == '/' then StripTrailingSlashes(p[..|p| - 1]) else p
  }

  /** The index of the last occurrence of `c` in `s`. */
  function LastIndexOf(s: string, c: char): (r: Option<nat>)
    ensures r.Some? ==> r.value < |s|
  {
    if s == "" then None
    else if s[|s| - 1] == c then Some(|s| - 1)
    else LastIndexOf(s[..|s| - 1], c)
  }

  /** `LastIndexOf` finds an occurrence with none after it, or reports that there is none. */
  lemma {:induction false} LastIndexOfFinds(s: string, c: char)
    ensures var r := LastIndexOf(s, c);
      && (r.Some? ==> s[r.value] == c)
      && (r.Some? ==> forall i :: r.value < i < |s| ==> s[i] != c)
      && (r.None? ==> forall i :: 0 <= i < |s| ==> s[i] != c)
  {
    if s != "" && s[|s| - 1] != c {
      LastIndexOfFinds(s[..|s| - 1], c);
    }
  }

  /** What follows the last `/` of `p` (all of `p` when it has none). */
  function LastSegment(p: string): string {
    match LastIndexOf(p, '/')
    case None => p
    case Some(k) => p[k + 1..]
  }

  /** The last segment ends the path, holds no `/`, and is all of the path or follows a `/`. */
  lemma LastSegmentShape(p: string)
    ensures var r := LastSegment(p);
      && EndsWith(p, r)
      && (forall i :: 0 <= i < |r| ==> r[i] != '/')
      && (|r| < |p| ==> p[|p| - |r| - 1] == '/')
  {
    LastIndexOfFinds(p, '/');
  }

  /**
   * `path.extname(p)` on POSIX: from the last `.` of the last segment (trailing
   * slashes ignored) to its end; `""` when that segment has no `.`, when its
   * only candidate `.` is the segment's first character, or when it is `..`.
   */
  function Extname(p: string): (r: string)
    ensures r == "" || r[0] == '.'
  {
    var b := LastSegment(StripTrailingSlashes(p));
    LastIndexOfFinds(b, '.');
    match LastIndexOf(b, '.')
    case None => ""
    case Some(d) => if d == 0 || b == ".." then "" else b[d..]
  }

  /** After its leading `.` an extension holds no other `.` and no `/`. */
  lemma ExtnameHasOneDot(p: string)
    ensures forall i :: 1 <= i < |Extname(p)| ==> Extname(p)[i] != '.' && Extname(p)[i] != '/'
  {
    var b := LastSegment(StripTrailingSlashes(p));
    LastSegmentShape(StripTrailingSlashes(p));
    LastIndexOfFinds(b, '.');
  }

  /** The extension ends the path, trailing slashes aside. */
  lemma ExtnameEndsPath(p: string)
    ensures EndsWith(StripTrailingSlashes(p), Extname(p))
  {
    var q := StripTrailingSlashes(p);
    var b := LastSegment(q);
    LastSegmentShape(q);
    LastIndexOfFinds(b, '.');
    var d := LastIndexOf(b, '.');
    if d.Some? && d.value != 0 && b != ".." {
      var e := b[d.value..];
      assert q[|q| - |b|..] == b;
      assert q[|q| - |e|..] == b[d.value..];
    }
  }

  /**
   * The extension of `base.ext` is `.ext` when `ext` holds no `.` or `/`,
   * `base` holds no `/`, and the name is neither `.x`-like nor `..`.
   */
  lemma ExtnameOfName(base: string, ext: string)
    requires base != "" && (base != "." || ext != "")
    requires forall i :: 0 <= i < |base| ==> base[i] != '/'
    requires forall i :: 0 <= i < |ext| ==> ext[i] != '.' && ext[i] != '/'
    ensures Extname(base + "." + ext) == "." + ext
  {
    var p := base + "." + ext;
    assert p[|p| - 1] != '/' by {
      if ext == "" { assert p[|p| - 1] == '.'; } else { assert p[|p| - 1] == ext[|ext| - 1]; }
    }
    assert StripTrailingSlashes(p) == p;
    LastIndexOfFinds(p, '/');
    assert forall i :: 0 <= i < |p| ==> p[i] != '/';
    assert LastSegment(p) == p;
    LastIndexOfFinds(p, '.');
    assert p[|base|] == '.';
    assert forall i :: |base| < i < |p| ==> p[i] != '.';
    assert LastIndexOf(p, '.') == Some(|base|);
  }

  /** The last `/` of `dir/name`, for a `name` without `/`, is the one before `name`. */
  lemma {:induction false} SlashBeforeName(dir: string, name: string)
    requires forall i :: 0 <= i < |name| ==> name[i] != '/'
    ensures LastIndexOf(dir + "/" + name, '/') == Some(|dir|)
  {
    var p := dir + "/" + name;
    if name != "" {
      var n := |name| - 1;
      assert p[|p| - 1] == name[n];
      assert p[..|p| - 1] == dir + "/" + name[..n];
      SlashBeforeName(dir, name[..n]);
    }
  }

  /** A name without `/` has the same extension on its own and after a directory. */
  lemma ExtnameAfterDirectory(dir: string, name: string)
    requires name != "" && forall i :: 0 <= i < |name| ==> name[i] != '/'
    ensures Extname(dir + "/" + name) == Extname(name)
  {
    var p := dir + "/" + name;
    assert p[|p| - 1] == name[|name| - 1];
    SlashBeforeName(dir, name);
    assert LastSegment(p) == p[|dir| + 1..] == name;
    LastIndexOfFinds(name, '/');
    assert LastSegment(name) == name;
  }

  /** The extension of `dir/base.ext` is `.ext` under the conditions of `ExtnameOfName`. */
  lemma ExtnameOfPath(dir: string, base: string, ext: string)
    requires base != "" && (base != "." || ext != "")
    requires forall i :: 0 <= i < |base| ==> base[i] != '/'
    requires forall i :: 0 <= i < |ext| ==> ext[i] != '.' && ext[i] != '/'
    ensures Extname(dir + "/" + base + "." + ext) == "." + ext
  {
    NameHasNoSlash(base, ext);
    ExtnameOfName(base, ext);
    ExtnameAfterDirectory(dir, base + "." + ext);
    PathOfName(dir, base, ext);
  }

  /** Regrouping `dir/base.ext` around its file name. */
  lemma PathOfName(dir: string, base: string, ext: string)
    ensures dir + "/" + base + "." + ext == dir + "/" + (base + "." + ext)
  {
  }

  /** Regrouping a dotted suffix. */
  lemma AppendDotted(s: string, ext: string)
    ensures s + ("." + ext) == s + "." + ext
  {
  }

  /** `base.ext` holds no `/` when neither part does. */
  lemma NameHasNoSlash(base: string, ext: string)
    requires forall i :: 0 <= i < |base| ==> base[i] != '/'
    requires forall i :: 0 <= i < |ext| ==> ext[i] != '/'
    ensures forall i :: 0 <= i < |base + "." + ext| ==> (base + "." + ext)[i] != '/'
  {
  }
}
