/**
 * The sassport loader for webpack (lib/loader.js): it turns the loader options,
 * the source text and the resource path into a compile job for the shared job
 * queue (or an early answer), and turns the compiler's answer into the
 * callback's arguments and the dependencies registered with webpack.
 *
 * The webpack loader context is modelled by its observable effects: `Context`
 * holds what the loader reads from it, the dependency log is a `seq<string>`
 * that registration appends to, and the callback's arguments are a value.
 */
module Loader {
  import opened JsValues
  import opened Text
  import Paths

  /**
   * The loader's own copy of the options (`merge({}, configOptions)`).
   * For the keys tested with `in` and for `sourceMap` and `importer`,
   * `None` means the key is absent and `Some(Undefined)` that it is present
   * but undefined. For `data`, `outputStyle`, `modules` and `includePaths`
   * the loader only tests truthiness, and `None` stands for an absent,
   * undefined or null value; present values have their documented types
   * (a string, an array of modules, an array of paths). Keys the loader does
   * not recognise are in `others`, which is taken to hold none of the eleven
   * names above: a key is either one of the fields or in `others`, never both.
   */
  datatype Options = Options(
    data: Option<string>,
    modules: Option<seq<JsValue>>,
    outputStyle: Option<string>,
    sourceMap: Option<JsValue>,
    sourceMapRoot: Option<JsValue>,
    omitSourceMapUrl: Option<JsValue>,
    sourceMapContents: Option<JsValue>,
    indentedSyntax: Option<JsValue>,
    importer: Option<JsValue>,
    includePaths: Option<seq<string>>,
    others: map<string, JsValue>)

  /** The process and `path` facilities the loader calls: `process.cwd()`, `os.EOL` and four path functions. */
  datatype PathOps = PathOps(
    cwd: string,
    eol: string,
    join: (string, string) -> string,
    dirname: string -> string,
    relative: (string, string) -> string,
    normalize: string -> string)

  /** What the loader reads from webpack's loader context: whether `this.async()` gave a callback, `this.minimize`, `this.resourcePath`. */
  datatype Context = Context(isAsync: bool, minimize: bool, resourcePath: string)

  /** The job pushed onto the queue: the sassport instance (built from `modules`) and the options. */
  datatype Job = Job(modules: seq<JsValue>, options: Options)

  /** How one call of the loader ends: it throws, it calls back at once, or it queues a job. */
  datatype Invocation =
    | SyncNotSupported(message: string)
    | Skipped(css: string)
    | Enqueued(job: Job)

  const SyncMessage := "Synchronous compilation is not supported anymore. See https://github.com/webpack-contrib/sass-loader/issues/333"
  const SassMapName := "/sass.map"
  const Compressed := "compressed"
  const SassExtension := ".sass"
  const DefaultThreadPoolSize := 4

  // ---------------------------------------------------------------------
  // Option normalisation, rule by rule
  // ---------------------------------------------------------------------

  /** `options.data ? options.data + os.EOL + content : content` */
  function CombinedSource(data: Option<string>, eol: string, content: string): (r: string)
    ensures !StrTruthy(data) ==> r == content
    ensures StrTruthy(data) ==> |r| == |data.value| + |eol| + |content|
    ensures StrTruthy(data) ==> r[..|data.value|] == data.value
    ensures StrTruthy(data) ==> r[|data.value|..|data.value| + |eol|] == eol
    ensures EndsWith(r, content)
  {
    if StrTruthy(data) then data.value + eol + content else content
  }

  /** `options.modules || []` */
  function ModulesOrEmpty(modules: Option<seq<JsValue>>): seq<JsValue> {
    if modules.Some? then modules.value else []
  }

  /** The minify rule: a falsy `outputStyle` becomes `"compressed"` when webpack asks to minimize. */
  function WithOutputStyle(o: Options, minimize: bool): (r: Options)
    ensures r == o.(outputStyle := r.outputStyle)
    ensures StrTruthy(o.outputStyle) || !minimize ==> r == o
    ensures r.outputStyle == o.outputStyle || r.outputStyle == Some(Compressed)
    ensures minimize ==> StrTruthy(r.outputStyle)
  {
    if !StrTruthy(o.outputStyle) && minimize then o.(outputStyle := Some(Compressed)) else o
  }

  /** A key that was present keeps its value, even a falsy one; an absent key gets the default. */
  predicate KeptOrDefaulted(before: Option<JsValue>, after: Option<JsValue>, default: JsValue) {
    (before.Some? ==> after == before) && (before.None? ==> after == Some(default))
  }

  /** The source-map rule: with source maps on, force the map path and default the three related keys. */
  function WithSourceMapOptions(o: Options, cwd: string, mapPath: string): (r: Options)
    ensures !OptTruthy(o.sourceMap) ==> r == o
    ensures OptTruthy(o.sourceMap) ==> r.sourceMap == Some(Str(mapPath))
    ensures OptTruthy(o.sourceMap) ==> KeptOrDefaulted(o.sourceMapRoot, r.sourceMapRoot, Str(cwd))
    ensures OptTruthy(o.sourceMap) ==> KeptOrDefaulted(o.omitSourceMapUrl, r.omitSourceMapUrl, Bool(true))
    ensures OptTruthy(o.sourceMap) ==> KeptOrDefaulted(o.sourceMapContents, r.sourceMapContents, Bool(true))
    ensures r == o.(sourceMap := r.sourceMap, sourceMapRoot := r.sourceMapRoot,
                    omitSourceMapUrl := r.omitSourceMapUrl, sourceMapContents := r.sourceMapContents)
  {
    if OptTruthy(o.sourceMap) then
      o.(sourceMap := Some(Str(mapPath)),
         sourceMapRoot := if o.sourceMapRoot.None? then Some(Str(cwd)) else o.sourceMapRoot,
         omitSourceMapUrl := if o.omitSourceMapUrl.None? then Some(Bool(true)) else o.omitSourceMapUrl,
         sourceMapContents := if o.sourceMapContents.None? then Some(Bool(true)) else o.sourceMapContents)
    else o
  }

  /** `ext && ext.toLowerCase() === ".sass"` */
  predicate IsSassExtension(ext: string) {
    ext != "" && LowerAscii(ext) == SassExtension
  }

  /**
   * The syntax rule: `indentedSyntax` always ends up a boolean, true exactly
   * when the extension is `.sass` and the key is absent, or the given value is truthy.
   */
  function WithIndentedSyntax(o: Options, ext: string): (r: Options)
    ensures r == o.(indentedSyntax := r.indentedSyntax)
    ensures r.indentedSyntax.Some? && r.indentedSyntax.value.Bool?
    ensures r.indentedSyntax.value.b <==>
              (IsSassExtension(ext) && o.indentedSyntax.None?) || OptTruthy(o.indentedSyntax)
  {
    if IsSassExtension(ext) && o.indentedSyntax.None? then o.(indentedSyntax := Some(Bool(true)))
    else o.(indentedSyntax := Some(ToBoolean(Read(o.indentedSyntax))))
  }

  /**
   * `proxyCustomImporters(importer, resourcePath)`. Its file is not part of this
   * model; it is taken to wrap the one importer given, or each importer of an
   * array, in order, for the resource path.
   */
  function ProxyCustomImporters(importer: JsValue, resourcePath: string): (r: seq<JsValue>)
    ensures importer.Arr? ==> |r| == |importer.items|
    ensures importer.Arr? ==> forall i :: 0 <= i < |r| ==> r[i] == Fn(CustomImporterProxy(importer.items[i], resourcePath))
    ensures !importer.Arr? ==> r == [Fn(CustomImporterProxy(importer, resourcePath))]
  {
    var given := if importer.Arr? then importer.items else [importer];
    seq(|given|, i requires 0 <= i < |given| => Fn(CustomImporterProxy(given[i], resourcePath)))
  }

  /** The custom part of the importer chain: `options.importer ? proxyCustomImporters(...) : []`. */
  function CustomImporters(o: Options, resourcePath: string): seq<JsValue> {
    if OptTruthy(o.importer) then ProxyCustomImporters(o.importer.value, resourcePath) else []
  }

  /** The importer chain: the custom importers, then the sassport importer, then the webpack importer last. */
  function WithImporters(o: Options, resourcePath: string, modules: seq<JsValue>): (r: Options)
    ensures r == o.(importer := r.importer)
    ensures r.importer.Some? && r.importer.value.Arr?
    ensures var chain, custom := r.importer.value.items, CustomImporters(o, resourcePath);
      && |chain| == |custom| + 2
      && chain[..|custom|] == custom
      && chain[|custom|] == Fn(SassportImporter(modules))
      && chain[|chain| - 1] == Fn(WebpackImporter(resourcePath))
  {
    var custom := CustomImporters(o, resourcePath);
    o.(importer := Some(Arr(custom + [Fn(SassportImporter(modules))] + [Fn(WebpackImporter(resourcePath))])))
  }

  /** The include-path rule: the given paths in their order, then the resource's directory. */
  function WithIncludePaths(o: Options, dir: string): (r: Options)
    ensures r == o.(includePaths := r.includePaths)
    ensures r.includePaths.Some?
    ensures var given, paths := (if o.includePaths.Some? then o.includePaths.value else []), r.includePaths.value;
      |paths| == |given| + 1 && paths[..|given|] == given && paths[|given|] == dir
  {
    o.(includePaths := Some((if o.includePaths.Some? then o.includePaths.value else []) + [dir]))
  }

  /** The options of the job the loader queues, rule after rule in the loader's order. */
  function NormalizedOptions(config: Options, ctx: Context, ops: PathOps, content: string): Options {
    var withData := config.(data := Some(CombinedSource(config.data, ops.eol, content)));
    var withModules := withData.(modules := Some(ModulesOrEmpty(withData.modules)));
    var styled := WithOutputStyle(withModules, ctx.minimize);
    var mapped := WithSourceMapOptions(styled, ops.cwd, ops.join(ops.cwd, SassMapName));
    var syntax := WithIndentedSyntax(mapped, Paths.Extname(ctx.resourcePath));
    var chained := WithImporters(syntax, ctx.resourcePath, ModulesOrEmpty(config.modules));
    WithIncludePaths(chained, ops.dirname(ctx.resourcePath))
  }

  /** The source-map rule reads only the four keys it sets. */
  lemma SourceMapRuleReadsOwnKeys(a: Options, b: Options, cwd: string, mapPath: string)
    requires a.sourceMap == b.sourceMap && a.sourceMapRoot == b.sourceMapRoot
    requires a.omitSourceMapUrl == b.omitSourceMapUrl && a.sourceMapContents == b.sourceMapContents
    ensures var x, y := WithSourceMapOptions(a, cwd, mapPath), WithSourceMapOptions(b, cwd, mapPath);
      && x.sourceMap == y.sourceMap && x.sourceMapRoot == y.sourceMapRoot
      && x.omitSourceMapUrl == y.omitSourceMapUrl && x.sourceMapContents == y.sourceMapContents
  {
  }

  /** The syntax rule reads only the key it sets. */
  lemma SyntaxRuleReadsOwnKey(a: Options, b: Options, ext: string)
    requires a.indentedSyntax == b.indentedSyntax
    ensures WithIndentedSyntax(a, ext).indentedSyntax == WithIndentedSyntax(b, ext).indentedSyntax
  {
  }

  /**
   * Each key of the normalised options is decided by its own rule applied to the
   * caller's options alone: the rules do not interfere, and keys the loader does
   * not know pass through untouched.
   */
  lemma NormalizedOptionsByKey(config: Options, ctx: Context, ops: PathOps, content: string)
    ensures var r, m := NormalizedOptions(config, ctx, ops, content),
                        WithSourceMapOptions(config, ops.cwd, ops.join(ops.cwd, SassMapName));
      && r.data == Some(CombinedSource(config.data, ops.eol, content))
      && r.modules == Some(ModulesOrEmpty(config.modules))
      && r.outputStyle == WithOutputStyle(config, ctx.minimize).outputStyle
      && r.sourceMap == m.sourceMap
      && r.sourceMapRoot == m.sourceMapRoot
      && r.omitSourceMapUrl == m.omitSourceMapUrl
      && r.sourceMapContents == m.sourceMapContents
      && r.indentedSyntax == WithIndentedSyntax(config, Paths.Extname(ctx.resourcePath)).indentedSyntax
      && r.importer == WithImporters(config, ctx.resourcePath, ModulesOrEmpty(config.modules)).importer
      && r.includePaths == WithIncludePaths(config, ops.dirname(ctx.resourcePath)).includePaths
      && r.others == config.others
  {
    var mapPath, ext, dir := ops.join(ops.cwd, SassMapName), Paths.Extname(ctx.resourcePath), ops.dirname(ctx.resourcePath);
    var modules := ModulesOrEmpty(config.modules);
    var withData := config.(data := Some(CombinedSource(config.data, ops.eol, content)));
    var withModules := withData.(modules := Some(ModulesOrEmpty(withData.modules)));
    var styled := WithOutputStyle(withModules, ctx.minimize);
    var mapped := WithSourceMapOptions(styled, ops.cwd, mapPath);
    var syntax := WithIndentedSyntax(mapped, ext);
    var chained := WithImporters(syntax, ctx.resourcePath, modules);
    var r := WithIncludePaths(chained, dir);
    assert r == NormalizedOptions(config, ctx, ops, content);
    assert styled.outputStyle == WithOutputStyle(config, ctx.minimize).outputStyle;
    SourceMapRuleReadsOwnKeys(styled, config, ops.cwd, mapPath);
    SyntaxRuleReadsOwnKey(mapped, config, ext);
    assert CustomImporters(syntax, ctx.resourcePath) == CustomImporters(config, ctx.resourcePath);
    assert chained.importer == WithImporters(config, ctx.resourcePath, modules).importer;
    assert chained.includePaths == config.includePaths;
  }

  /** The three rules that set a key from its own value are idempotent: a second pass changes nothing. */
  lemma RulesIdempotent(o: Options, minimize: bool, cwd: string, mapPath: string, ext: string)
    ensures WithOutputStyle(WithOutputStyle(o, minimize), minimize) == WithOutputStyle(o, minimize)
    ensures var m := WithSourceMapOptions(o, cwd, mapPath); WithSourceMapOptions(m, cwd, mapPath) == m
    ensures var s := WithIndentedSyntax(o, ext); WithIndentedSyntax(s, ext) == s
  {
  }

  /** A `.scss` resource without the `indentedSyntax` key compiles as SCSS. */
  lemma ScssIsNotIndented(config: Options, ctx: Context, ops: PathOps, content: string)
    requires config.indentedSyntax.None? && Paths.Extname(ctx.resourcePath) == ".scss"
    ensures NormalizedOptions(config, ctx, ops, content).indentedSyntax == Some(Bool(false))
  {
    ScssIsNotSass();
    NormalizedOptionsByKey(config, ctx, ops, content);
  }

  lemma ScssIsNotSass()
    ensures !IsSassExtension(".scss")
  {
    assert LowerAscii(".scss")[2] == 'c' != SassExtension[2];
  }

  /** A `.sass` resource, in any letter case, without the `indentedSyntax` key compiles as the indented syntax. */
  lemma SassIsIndented(config: Options, ctx: Context, ops: PathOps, content: string)
    requires config.indentedSyntax.None? && LowerAscii(Paths.Extname(ctx.resourcePath)) == SassExtension
    ensures NormalizedOptions(config, ctx, ops, content).indentedSyntax == Some(Bool(true))
  {
    NormalizedOptionsByKey(config, ctx, ops, content);
  }

  /** A resource `dir/base.scss`, with a plain `base`, compiles as SCSS unless the key says otherwise. */
  lemma ScssFileIsNotIndented(config: Options, ctx: Context, ops: PathOps, content: string, dir: string, base: string)
    requires config.indentedSyntax.None? && base != ""
    requires forall i :: 0 <= i < |base| ==> base[i] != '/'
    requires ctx.resourcePath == dir + "/" + base + ".scss"
    ensures NormalizedOptions(config, ctx, ops, content).indentedSyntax == Some(Bool(false))
  {
    Paths.ExtnameOfPath(dir, base, "scss");
    assert "." + "scss" == ".scss";
    Paths.AppendDotted(dir + "/" + base, "scss");
    ScssIsNotIndented(config, ctx, ops, content);
  }

  /** A resource `dir/base.sass`, with a plain `base`, compiles as the indented syntax unless the key says otherwise. */
  lemma SassFileIsIndented(config: Options, ctx: Context, ops: PathOps, content: string, dir: string, base: string)
    requires config.indentedSyntax.None? && base != ""
    requires forall i :: 0 <= i < |base| ==> base[i] != '/'
    requires ctx.resourcePath == dir + "/" + base + ".sass"
    ensures NormalizedOptions(config, ctx, ops, content).indentedSyntax == Some(Bool(true))
  {
    Paths.ExtnameOfPath(dir, base, "sass");
    assert "." + "sass" == ".sass";
    Paths.AppendDotted(dir + "/" + base, "sass");
    assert LowerAscii(".sass") == SassExtension;
    SassIsIndented(config, ctx, ops, content);
  }

  // ---------------------------------------------------------------------
  // The loader
  // ---------------------------------------------------------------------

  /** The loader's output-style block. */
  method SetOutputStyle(options: Options, minimize: bool) returns (o: Options)
    ensures o == WithOutputStyle(options, minimize)
  {
    o := options;
    if !StrTruthy(o.outputStyle) && minimize {
      o := o.(outputStyle := Some(Compressed));
    }
  }

  /**
   * The loader's source-map block: with source maps on, `sourceMap` is overwritten
   * with the map path and each of the three related keys is set only if absent.
   */
  method SetSourceMapOptions(options: Options, cwd: string, mapPath: string) returns (o: Options)
    ensures o == WithSourceMapOptions(options, cwd, mapPath)
  {
    o := options;
    if OptTruthy(o.sourceMap) {
      o := o.(sourceMap := Some(Str(mapPath)));
      if o.sourceMapRoot.None? {
        o := o.(sourceMapRoot := Some(Str(cwd)));
      }
      if o.omitSourceMapUrl.None? {
        o := o.(omitSourceMapUrl := Some(Bool(true)));
      }
      if o.sourceMapContents.None? {
        o := o.(sourceMapContents := Some(Bool(true)));
      }
    }
  }

  /** The loader's syntax block: `indentedSyntax` from the extension when the key is absent, else coerced to a boolean. */
  method SetIndentedSyntax(options: Options, ext: string) returns (o: Options)
    ensures o == WithIndentedSyntax(options, ext)
  {
    o := options;
    if IsSassExtension(ext) && o.indentedSyntax.None? {
      o := o.(indentedSyntax := Some(Bool(true)));
    } else {
      o := o.(indentedSyntax := Some(ToBoolean(Read(o.indentedSyntax))));
    }
  }

  /** The loader's importer block: the custom importers, then two `push`es. */
  method SetImporters(options: Options, resourcePath: string, modules: seq<JsValue>) returns (o: Options)
    ensures o == WithImporters(options, resourcePath, modules)
  {
    o := options;
    var importers := if OptTruthy(o.importer) then ProxyCustomImporters(o.importer.value, resourcePath) else [];
    o := o.(importer := Some(Arr(importers)));
    importers := importers + [Fn(SassportImporter(modules))];
    importers := importers + [Fn(WebpackImporter(resourcePath))];
    o := o.(importer := Some(Arr(importers)));
  }

  /** The loader's include-path block: `(options.includePaths || []).concat(dir)`. */
  method SetIncludePaths(options: Options, dir: string) returns (o: Options)
    ensures o == WithIncludePaths(options, dir)
  {
    o := options;
    var includePaths := if o.includePaths.Some? then o.includePaths.value else [];
    o := o.(includePaths := Some(includePaths + [dir]));
  }

  /**
   * `sassportLoader(content)`: rejects synchronous use, answers whitespace-only
   * input with the original content, and otherwise queues a job whose options
   * are the normalised options.
   */
  method SassportLoader(ctx: Context, ops: PathOps, config: Options, content: string) returns (r: Invocation)
    ensures !ctx.isAsync ==> r == SyncNotSupported(SyncMessage)
    ensures ctx.isAsync && IsBlank(CombinedSource(config.data, ops.eol, content)) ==> r == Skipped(content)
    ensures ctx.isAsync && !IsBlank(CombinedSource(config.data, ops.eol, content)) ==>
              r == Enqueued(Job(ModulesOrEmpty(config.modules), NormalizedOptions(config, ctx, ops, content)))
  {
    if !ctx.isAsync {
      return SyncNotSupported(SyncMessage);
    }
    var options := config;
    var data := if StrTruthy(options.data) then options.data.value + ops.eol + content else content;
    options := options.(data := Some(data));
    var modules := if options.modules.Some? then options.modules.value else [];
    options := options.(modules := Some(modules));
    ghost var withData := config.(data := Some(CombinedSource(config.data, ops.eol, content)));
    ghost var spec := withData.(modules := Some(ModulesOrEmpty(withData.modules)));
    assert options == spec;

    TrimEmptyIffBlank(data);
    if Trim(data) == "" {
      return Skipped(content);
    }

    options := SetOutputStyle(options, ctx.minimize);
    spec := WithOutputStyle(spec, ctx.minimize);

    options := SetSourceMapOptions(options, ops.cwd, ops.join(ops.cwd, SassMapName));
    spec := WithSourceMapOptions(spec, ops.cwd, ops.join(ops.cwd, SassMapName));

    var ext := Paths.Extname(ctx.resourcePath);
    options := SetIndentedSyntax(options, ext);
    spec := WithIndentedSyntax(spec, ext);

    options := SetImporters(options, ctx.resourcePath, modules);
    spec := WithImporters(spec, ctx.resourcePath, ModulesOrEmpty(config.modules));

    options := SetIncludePaths(options, ops.dirname(ctx.resourcePath));
    spec := WithIncludePaths(spec, ops.dirname(ctx.resourcePath));
    assert spec == NormalizedOptions(config, ctx, ops, content);

    r := Enqueued(Job(modules, options));
  }

  /**
   * An empty or whitespace-only source never reaches the queue when the `data`
   * prefix (if any) and the line end are whitespace only as well.
   */
  lemma BlankSourceNeverQueued(ops: PathOps, config: Options, content: string)
    requires IsBlank(content)
    requires StrTruthy(config.data) ==> IsBlank(config.data.value) && IsBlank(ops.eol)
    ensures Trim(CombinedSource(config.data, ops.eol, content)) == ""
  {
    var s := CombinedSource(config.data, ops.eol, content);
    if StrTruthy(config.data) {
      var d := config.data.value;
      forall i | 0 <= i < |s|
        ensures IsWhitespace(s[i])
      {
        if i < |d| {
          assert s[i] == d[i];
        } else if i < |d| + |ops.eol| {
          assert s[i] == ops.eol[i - |d|];
        } else {
          assert s[i] == content[i - |d| - |ops.eol|];
        }
      }
    }
    TrimEmptyIffBlank(s);
  }

  // ---------------------------------------------------------------------
  // The queue's completion callback
  // ---------------------------------------------------------------------

  /** A compile error; `file` is the file the error is in, when the compiler reports one. */
  datatype SassError = SassError(message: string, file: Option<string>, others: map<string, JsValue>)

  /** A parsed source map: the keys the loader rewrites, and the rest. */
  datatype SourceMap = SourceMap(sources: seq<string>, sourceRoot: string, file: Option<string>, others: map<string, JsValue>)

  /** The compiler's `result.map`: absent, or a JSON text together with what `JSON.parse` makes of it. */
  datatype RawMap = NoMap | MapText(text: string, parsed: SourceMap)

  /** What the queued render reports to the completion callback. */
  datatype RenderResult =
    | RenderFailed(err: SassError)
    | Rendered(css: string, rawMap: RawMap, includedFiles: seq<string>)

  /** The arguments the loader's callback receives: an error, or the CSS and the map (`None` for `null`). */
  datatype Completion = Errored(err: SassError) | Compiled(css: string, sourceMap: Option<SourceMap>)

  /**
   * The map handed to webpack: `file` removed, the first source (the compiler's
   * `stdin`) replaced by the resource path relative to the working directory,
   * and the source root and every source normalised.
   */
  function NormalizedMap(m: SourceMap, ops: PathOps, resourcePath: string): (r: SourceMap)
    ensures r.file == None
    ensures |r.sources| == if m.sources == [] then 1 else |m.sources|
    ensures r.sources[0] == ops.normalize(ops.relative(ops.cwd, resourcePath))
    ensures forall i :: 1 <= i < |m.sources| ==> r.sources[i] == ops.normalize(m.sources[i])
    ensures r.sourceRoot == ops.normalize(m.sourceRoot)
    ensures r.others == m.others
  {
    var rel := ops.relative(ops.cwd, resourcePath);
    var s := if m.sources == [] then [rel] else m.sources[0 := rel];
    m.(file := None,
       sources := seq(|s|, i requires 0 <= i < |s| => ops.normalize(s[i])),
       sourceRoot := ops.normalize(m.sourceRoot))
  }

  /** `result.map` after the callback's rewriting: `null` for no map, an empty text or `"{}"`. */
  function MaterializedMap(raw: RawMap, ops: PathOps, resourcePath: string): (r: Option<SourceMap>)
    ensures r.None? <==> raw.NoMap? || raw.text == "" || raw.text == "{}"
    ensures r.Some? ==> r.value == NormalizedMap(raw.parsed, ops, resourcePath)
  {
    if raw.MapText? && raw.text != "" && raw.text != "{}" then Some(NormalizedMap(raw.parsed, ops, resourcePath))
    else None
  }

  /** `addIncludedFilesToWebpack`: registers every included file, normalised, in order. */
  method AddIncludedFilesToWebpack(normalize: string -> string, includedFiles: seq<string>, deps: seq<string>)
    returns (deps': seq<string>)
    ensures |deps'| == |deps| + |includedFiles|
    ensures deps'[..|deps|] == deps
    ensures forall k :: 0 <= k < |includedFiles| ==> deps'[|deps| + k] == normalize(includedFiles[k])
  {
    deps' := deps;
    for i := 0 to |includedFiles|
      invariant |deps'| == |deps| + i
      invariant deps'[..|deps|] == deps
      invariant forall k :: 0 <= k < i ==> deps'[|deps| + k] == normalize(includedFiles[k])
    {
      deps' := deps' + [normalize(includedFiles[i])];
    }
  }

  /**
   * The callback given to `asyncSassJobQueue.push`. On failure it formats the
   * error (`formatSassError`, a parameter here since its file is not part of
   * this model), registers the error's file if it has one, and passes the error
   * on with no CSS. On success it rewrites the map, registers every included
   * file and passes on the CSS and the map.
   */
  method OnComplete(ops: PathOps, formatError: (SassError, string) -> SassError, resourcePath: string,
                    result: RenderResult, deps: seq<string>)
    returns (deps': seq<string>, done: Completion)
    ensures result.RenderFailed? ==>
              var e := formatError(result.err, resourcePath);
              && done == Errored(e)
              && deps' == if StrTruthy(e.file) then deps + [e.file.value] else deps
    ensures result.Rendered? ==>
              && done == Compiled(result.css, MaterializedMap(result.rawMap, ops, resourcePath))
              && |deps'| == |deps| + |result.includedFiles|
              && deps'[..|deps|] == deps
              && forall k :: 0 <= k < |result.includedFiles| ==>
                   deps'[|deps| + k] == ops.normalize(result.includedFiles[k])
  {
    if result.RenderFailed? {
      var err := formatError(result.err, resourcePath);
      deps' := deps;
      if StrTruthy(err.file) {
        deps' := deps' + [err.file.value];
      }
      done := Errored(err);
      return;
    }

    var sourceMap: Option<SourceMap> := None;
    if result.rawMap.MapText? && result.rawMap.text != "" && result.rawMap.text != "{}" {
      var m := result.rawMap.parsed;
      m := m.(file := None);
      var rel := ops.relative(ops.cwd, resourcePath);
      m := m.(sources := if m.sources == [] then [rel] else m.sources[0 := rel]);
      m := m.(sourceRoot := ops.normalize(m.sourceRoot));
      var s := m.sources;
      m := m.(sources := seq(|s|, i requires 0 <= i < |s| => ops.normalize(s[i])));
      sourceMap := Some(m);
    }

    deps' := AddIncludedFilesToWebpack(ops.normalize, result.includedFiles, deps);
    done := Compiled(result.css, sourceMap);
  }

  // ---------------------------------------------------------------------
  // The queue's concurrency limit
  // ---------------------------------------------------------------------

  predicate IsDigits(s: string) {
    s != "" && forall i :: 0 <= i < |s| ==> '0' <= s[i] <= '9'
  }

  /** The value of a decimal numeral, most significant digit first (meaningful for digit strings). */
  function DecimalValue(s: string): int {
    if s == "" then 0 else 10 * DecimalValue(s[..|s| - 1]) + (s[|s| - 1] as int - '0' as int)
  }

  /** A decimal integer numeral, possibly signed; the empty string also converts (to 0). */
  predicate IsIntegerNumeral(t: string) {
    t == "" || IsDigits(t) || (t[0] in "+-" && IsDigits(t[1..]))
  }

  /**
   * JavaScript's conversion of a string to a number, for the integer numerals:
   * surrounding whitespace is ignored, an empty string is 0, a sign is allowed.
   * `None` covers every other string.
   */
  function StringToInteger(s: string): (r: Option<int>)
    ensures r.Some? <==> IsIntegerNumeral(Trim(s))
    ensures Trim(s) == "" ==> r == Some(0)
    ensures IsDigits(Trim(s)) ==> r == Some(DecimalValue(Trim(s)))
    ensures var t := Trim(s); t != "" && t[0] == '-' && IsDigits(t[1..]) ==> r == Some(-DecimalValue(t[1..]))
    ensures var t := Trim(s); t != "" && t[0] == '+' && IsDigits(t[1..]) ==> r == Some(DecimalValue(t[1..]))
  {
    var t := Trim(s);
    if t == "" then Some(0)
    else if IsDigits(t) then Some(DecimalValue(t))
    else if t[0] == '-' && IsDigits(t[1..]) then Some(-DecimalValue(t[1..]))
    else if t[0] == '+' && IsDigits(t[1..]) then Some(DecimalValue(t[1..]))
    else None
  }

  /** `process.env.UV_THREADPOOL_SIZE || 4`: the variable's text when set and non-empty, else the number 4. */
  function ThreadPoolSize(env: Option<string>): (r: JsValue)
    ensures !StrTruthy(env) ==> r == Num(DefaultThreadPoolSize)
    ensures StrTruthy(env) ==> r == Str(env.value)
  {
    if StrTruthy(env) then Str(env.value) else Num(DefaultThreadPoolSize)
  }

  /** `threadPoolSize - 1`, the concurrency of the job queue (`None` when the text is not an integer numeral). */
  function QueueConcurrency(env: Option<string>): (r: Option<int>)
    ensures !StrTruthy(env) ==> r == Some(DefaultThreadPoolSize - 1)
    ensures StrTruthy(env) && StringToInteger(env.value).Some? ==> r == Some(StringToInteger(env.value).value - 1)
    ensures StrTruthy(env) && StringToInteger(env.value).None? ==> r.None?
  {
    match ThreadPoolSize(env)
    case Str(s) => (match StringToInteger(s) case Some(n) => Some(n - 1) case None => None)
    case Num(n) => Some(n - 1)
    case _ => None
  }

  /** A decimal numeral is read as itself. */
  lemma DigitsReadAsThemselves(s: string)
    requires IsDigits(s)
    ensures StringToInteger(s) == Some(DecimalValue(s))
  {
    TrimUnpadded(s);
  }

  /**
   * The queue leaves one worker of the pool free: its concurrency is one less
   * than the configured pool size, with no minimum, so a pool of 1 gives 0.
   */
  lemma ConfiguredConcurrency(s: string)
    requires IsDigits(s)
    ensures QueueConcurrency(Some(s)) == Some(DecimalValue(s) - 1)
  {
    assert ThreadPoolSize(Some(s)) == Str(s);
    DigitsReadAsThemselves(s);
  }

  /** Without the variable (or with it empty) the pool size is 4 and the concurrency 3; a pool of 1 gives 0. */
  lemma DefaultConcurrency(env: Option<string>)
    ensures !StrTruthy(env) ==> QueueConcurrency(env) == Some(3)
    ensures QueueConcurrency(Some("1")) == Some(0)
  {
    assert IsDigits("1");
    assert DecimalValue("1") == 1 by { assert "1"[..0] == ""; }
    ConfiguredConcurrency("1");
  }
}
