/**
 * The spec generator of the test suite: for every stylesheet of one syntax
 * (`scss` or `sass`) that is not an error case, render it with an importer
 * that rewrites `~` URLs, and write the CSS beside it as `spec/<stem>.css`.
 * The directory listing, the compiler and the file writes are parameters and
 * results; what is modelled is the URL rewrite, the entry filter and the stem.
 */
module CreateSpec {
  import opened Text
  import opened Paths

  /** The URL prefix that the importer redirects to the bootstrap-sass package. */
  const BootstrapPrefix := "~bootstrap-sass"

  /** The name prefix of the error-case stylesheets, which get no spec. */
  const ErrorPrefix := "error"

  /** What a Sass importer may return: decline, redirect to a file, or give contents. */
  datatype ImportResult = Decline | File(file: string) | Contents(contents: string)

  /**
   * The importer's rewrite: a URL that ends in `.css` is kept; otherwise a
   * leading `~bootstrap-sass` becomes `pathToBootstrap`, and then a leading
   * `~` becomes `testNodeModules`.
   */
  function RewriteUrl(url: string, pathToBootstrap: string, testNodeModules: string): (r: string)
    ensures EndsWith(url, ".css") ==> r == url
    ensures !EndsWith(url, ".css") && StartsWith(url, BootstrapPrefix) && pathToBootstrap != "" && pathToBootstrap[0] != '~' ==>
      r == pathToBootstrap + url[|BootstrapPrefix|..]
    ensures !EndsWith(url, ".css") && StartsWith(url, BootstrapPrefix) && StartsWith(pathToBootstrap, "~") ==>
      r == testNodeModules + pathToBootstrap[1..] + url[|BootstrapPrefix|..]
    ensures !EndsWith(url, ".css") && StartsWith(url, BootstrapPrefix) && pathToBootstrap == "" ==>
      r == ReplacePrefix(url[|BootstrapPrefix|..], "~", testNodeModules)
    ensures !EndsWith(url, ".css") && StartsWith(url, "~") && !StartsWith(url, BootstrapPrefix) ==>
      r == testNodeModules + url[1..]
    ensures !StartsWith(url, "~") ==> r == url
  {
    if EndsWith(url, ".css") then url
    else
      var once := ReplacePrefix(url, BootstrapPrefix, pathToBootstrap);
      assert StartsWith(url, BootstrapPrefix) && StartsWith(pathToBootstrap, "~") ==>
        once[1..] == pathToBootstrap[1..] + url[|BootstrapPrefix|..];
      assert StartsWith(url, BootstrapPrefix) ==> url[0] == BootstrapPrefix[0] == '~';
      assert !StartsWith(url, BootstrapPrefix) ==> once == url;
      ReplacePrefix(once, "~", testNodeModules)
  }

  /** The inline importer: it always answers with `{file: url}` for the rewritten URL. */
  function Importer(url: string, pathToBootstrap: string, testNodeModules: string): (r: ImportResult)
    ensures r.File? && r.file == RewriteUrl(url, pathToBootstrap, testNodeModules)
  {
    File(RewriteUrl(url, pathToBootstrap, testNodeModules))
  }

  /**
   * The entry filter: the extension is `.` + `ext` and the name does not start
   * with `error` (the source compares the first five characters).
   */
  predicate Keep(file: string, ext: string)
    ensures Keep(file, ext) <==> Extname(file) == "." + ext && !StartsWith(file, ErrorPrefix)
  {
    Extname(file) == "." + ext && Slice(file, 0, |ErrorPrefix|) != ErrorPrefix
  }

  /** `file.slice(0, -ext.length - 1)`: the name without its last `|ext| + 1` characters. */
  function FileWithoutExt(file: string, ext: string): (r: string)
    ensures var n := |file| - |ext| - 1;
      r == if n < 0 then "" else file[..n]
  {
    Slice(file, 0, -|ext| - 1)
  }

  /** Directory entries are plain names: they hold no `/`. */
  predicate IsEntryName(file: string) {
    forall i :: 0 <= i < |file| ==> file[i] != '/'
  }

  /** A plain name is its own last segment, trailing slashes aside. */
  lemma EntryNameIsLastSegment(file: string)
    requires IsEntryName(file)
    ensures StripTrailingSlashes(file) == file
    ensures LastSegment(file) == file
  {
    if file != "" {
      assert file[|file| - 1] != '/';
    }
    LastIndexOfFinds(file, '/');
  }

  /** A plain name with an extension has it from a `.` after its first character. */
  lemma EntryExtname(file: string) returns (d: nat)
    requires IsEntryName(file) && Extname(file) != ""
    ensures 0 < d < |file| && Extname(file) == file[d..]
  {
    EntryNameIsLastSegment(file);
    LastIndexOfFinds(file, '.');
    d := LastIndexOf(file, '.').value;
  }

  /**
   * A kept entry is its (non-empty) stem, a `.` and `ext`.
   */
  lemma KeptEntryShape(file: string, ext: string)
    requires IsEntryName(file) && Keep(file, ext)
    ensures var stem := FileWithoutExt(file, ext);
      stem != "" && file == stem + "." + ext
  {
    var d := EntryExtname(file);
    StemBeforeSuffix(file, ext, d);
  }

  /** Only an `ext` without `.` and `/` can pass the filter. */
  lemma KeptExtIsPlain(file: string, ext: string)
    requires Keep(file, ext)
    ensures forall i :: 0 <= i < |ext| ==> ext[i] != '.' && ext[i] != '/'
  {
    var e := Extname(file);
    ExtnameHasOneDot(file);
    assert forall i :: 0 <= i < |ext| ==> ext[i] == e[i + 1];
  }

  /** A name that ends in `.` + `ext` from index `d` on has `file[..d]` as its stem. */
  lemma StemBeforeSuffix(file: string, ext: string, d: nat)
    requires d < |file| && file[d..] == "." + ext
    ensures FileWithoutExt(file, ext) == file[..d]
    ensures file == file[..d] + "." + ext
  {
    assert file == file[..d] + file[d..];
  }

  /**
   * Conversely, `stem.ext` for a non-empty plain stem (other than `.` before
   * an empty `ext`) is kept unless it starts with `error`, and its stem is `stem`.
   */
  lemma NamedEntryKept(stem: string, ext: string)
    requires stem != "" && (stem != "." || ext != "") && IsEntryName(stem)
    requires forall i :: 0 <= i < |ext| ==> ext[i] != '.' && ext[i] != '/'
    ensures Keep(stem + "." + ext, ext) <==> !StartsWith(stem + "." + ext, ErrorPrefix)
    ensures FileWithoutExt(stem + "." + ext, ext) == stem
  {
    ExtnameOfName(stem, ext);
    assert (stem + "." + ext)[..|stem|] == stem;
  }

  /** `entries.filter(keep)`: the entries `keep` accepts, in their order. */
  function Filter(entries: seq<string>, keep: string -> bool): (r: seq<string>)
    ensures |r| <= |entries|
  {
    if entries == [] then []
    else
      var n := |entries| - 1;
      Filter(entries[..n], keep) + (if keep(entries[n]) then [entries[n]] else [])
  }

  /** Everything `Filter` returns is accepted by `keep`. */
  lemma {:induction false} FilterAccepted(entries: seq<string>, keep: string -> bool)
    ensures forall i :: 0 <= i < |Filter(entries, keep)| ==> keep(Filter(entries, keep)[i])
  {
    if entries != [] {
      FilterAccepted(entries[..|entries| - 1], keep);
    }
  }

  /** An entry survives `Filter` exactly when it is listed and accepted. */
  lemma {:induction false} FilterMembership(entries: seq<string>, keep: string -> bool, file: string)
    ensures file in Filter(entries, keep) <==> file in entries && keep(file)
  {
    if entries != [] {
      var n := |entries| - 1;
      FilterMembership(entries[..n], keep, file);
      assert entries == entries[..n] + [entries[n]];
    }
  }

  /** When every entry is accepted, `Filter` drops nothing. */
  lemma {:induction false} FilterAll(entries: seq<string>, keep: string -> bool)
    requires forall i :: 0 <= i < |entries| ==> keep(entries[i])
    ensures Filter(entries, keep) == entries
  {
    if entries != [] {
      var n := |entries| - 1;
      FilterAll(entries[..n], keep);
      assert entries == entries[..n] + [entries[n]];
    }
  }

  /** The source's filter callback for one syntax. */
  function KeepFor(ext: string): string -> bool {
    file => Keep(file, ext)
  }

  /** The entries that get a spec, in listing order. */
  function Kept(entries: seq<string>, ext: string): seq<string> {
    Filter(entries, KeepFor(ext))
  }

  /** An entry gets a spec exactly when it is listed and passes `Keep`. */
  lemma KeptMembership(entries: seq<string>, ext: string, file: string)
    ensures file in Kept(entries, ext) <==> file in entries && Keep(file, ext)
  {
    FilterMembership(entries, KeepFor(ext), file);
  }

  /** A listing of which every entry passes `Keep` is kept whole. */
  lemma KeptAll(entries: seq<string>, ext: string)
    requires forall i :: 0 <= i < |entries| ==> Keep(entries[i], ext)
    ensures Kept(entries, ext) == entries
  {
    FilterAll(entries, KeepFor(ext));
  }

  /** A written spec: the name inside the `spec` directory and the CSS. */
  datatype Written = Written(name: string, css: string)

  /** `.map(...)` over the kept entries: one spec per entry, named after its stem. */
  function Outputs(kept: seq<string>, ext: string, render: string -> string): (r: seq<Written>)
    ensures |r| == |kept|
    ensures forall i :: 0 <= i < |kept| ==> r[i] == Written(FileWithoutExt(kept[i], ext) + ".css", render(kept[i]))
  {
    seq(|kept|, i requires 0 <= i < |kept| => Written(FileWithoutExt(kept[i], ext) + ".css", render(kept[i])))
  }

  /** The spec written for a kept `stem.ext` is `stem.css`. */
  lemma OutputNamedAfterStem(entries: seq<string>, ext: string, render: string -> string, i: nat)
    requires i < |Kept(entries, ext)| && IsEntryName(Kept(entries, ext)[i])
    ensures var file, out := Kept(entries, ext)[i], Outputs(Kept(entries, ext), ext, render)[i];
      file == FileWithoutExt(file, ext) + "." + ext && out.name == FileWithoutExt(file, ext) + ".css"
  {
    FilterAccepted(entries, KeepFor(ext));
    KeptEntryShape(Kept(entries, ext)[i], ext);
  }

  /** Listing one more entry adds it to the kept ones exactly when it passes `Keep`. */
  lemma KeptStep(entries: seq<string>, ext: string, i: nat)
    requires i < |entries|
    ensures Kept(entries[..i + 1], ext) == Kept(entries[..i], ext) + (if Keep(entries[i], ext) then [entries[i]] else [])
  {
    assert entries[..i + 1][..i] == entries[..i];
  }

  /** One more kept entry adds its one spec at the end. */
  lemma OutputsAppend(kept: seq<string>, file: string, ext: string, render: string -> string)
    ensures Outputs(kept + [file], ext, render) == Outputs(kept, ext, render) + [Written(FileWithoutExt(file, ext) + ".css", render(file))]
  {
  }

  /**
   * `createSpec(ext)` over a directory listing: walks the entries in order and
   * writes one spec for each entry the filter keeps. `render` stands for the
   * compiler run with the rewriting importer.
   */
  method CreateSpecs(entries: seq<string>, ext: string, render: string -> string) returns (written: seq<Written>)
    ensures written == Outputs(Kept(entries, ext), ext, render)
  {
    written := [];
    for i := 0 to |entries|
      invariant written == Outputs(Kept(entries[..i], ext), ext, render)
    {
      KeptStep(entries, ext, i);
      if Keep(entries[i], ext) {
        var file := entries[i];
        OutputsAppend(Kept(entries[..i], ext), file, ext, render);
        written := written + [Written(FileWithoutExt(file, ext) + ".css", render(file))];
      }
    }
    assert entries[..|entries|] == entries;
  }
}
