# sassport-loader, modelled in Dafny

This project models the webpack loader for sassport (`lib/loader.js`).
sassport is a Sass compiler front end that can also serve Sass modules from JavaScript packages.
The loader is modelled in three parts:

- **Request building.** `Loader.SassportLoader` rejects synchronous use. It answers a whitespace-only source with the original content. Otherwise it queues a compile job. The job's options come from the caller's options, rule by rule:
  - the `data` prefix is joined to the source;
  - `modules` defaults to `[]`;
  - the minify rule sets `outputStyle`;
  - the source-map defaults are applied;
  - `indentedSyntax` is set from the file extension;
  - the importer chain is built (custom importers, then the sassport importer, then the webpack importer);
  - the resource directory is appended to `includePaths`.
- **Completion.** `Loader.OnComplete` is the queue's completion callback.
  - On failure it registers the failing file as a dependency and passes the error on.
  - On success it rewrites the source map (`file` removed, first source replaced, every source and the source root normalised), or turns it into `null`. It then registers every included file, normalised, in order.
- **Queue concurrency.** `Loader.QueueConcurrency` is the job queue's limit, `(UV_THREADPOOL_SIZE || 4) - 1`.

It also models the suite's spec generator (`test/tools/createSpec.js`):

- the importer that rewrites `~bootstrap-sass` and `~` URLs but leaves `.css` URLs alone;
- the directory-entry filter;
- the stem slice;
- the walk that writes one `spec/<stem>.css` per kept entry.

The modules are:

- `JsValues`: JavaScript values, truthiness and `Boolean(...)`.
- `Text`: `trim` with the ECMAScript whitespace set, ASCII `toLowerCase`, `slice`, and anchored prefix replacement.
- `Paths`: Node's POSIX `path.extname`.
- `Loader`: the loader.
- `CreateSpec`: the spec generator.

The loader mutates a fresh copy of the options field by field. It also mutates the freshly parsed map. The model does the same on local records, in methods. Each option block (`Loader.SetOutputStyle` and the other `Set*` methods) and `Loader.SassportLoader` are proved equal to a specification function. The properties of those functions are their own `ensures` clauses, plus lemmas that relate several of them. `Loader.AddIncludedFilesToWebpack` and `Loader.OnComplete` state their results element by element in their `ensures` clauses.

The webpack loader context is represented as follows:

- `Context` holds what the loader reads from it.
- Registered dependencies are a log, a `seq<string>` the callback appends to.
- The callback's arguments are a result value.

`process.cwd()`, `os.EOL` and the path functions `join`, `dirname`, `relative` and `normalize` are parameters (`PathOps`).

The comment at lib/loader.js:20-22 says the queue leaves one thread of the pool free. The code computes `(size || 4) - 1`, with no maximum, so a configured pool size of 1 gives a concurrency of 0.

## Model

| member | source | states |
|---|---|---|
| JsValues.ToBoolean | lib/loader.js:122 | `Boolean(v)` is a boolean that is true exactly when `v` is truthy; a boolean is returned as is |
| Text.TrimEmptyIffBlank | lib/loader.js:80 | a string trims to `""` exactly when every character is ECMAScript whitespace |
| Text.ReplacePrefix | test/tools/createSpec.js:29-30 | definition: an anchored `replace` rewrites only a prefix match, once, and leaves any other string unchanged |
| Paths.Extname | lib/loader.js:116 | the POSIX extension of a path is empty or starts with `.` |
| Paths.ExtnameHasOneDot | lib/loader.js:116 | after its leading `.`, an extension contains no `.` and no `/` |
| Paths.ExtnameEndsPath | lib/loader.js:116 | the extension is a suffix of the path once trailing slashes are stripped |
| Paths.ExtnameAfterDirectory | lib/loader.js:116 | a file name without `/` has the same extension after any directory prefix as on its own |
| Paths.ExtnameOfPath | lib/loader.js:116 | the extension of `dir/base.ext` is `.ext` under the same conditions on `base` and `ext` as for a bare name |
| Paths.ExtnameOfName | test/tools/createSpec.js:17 | the extension of `base.ext` is `.ext` when `base` is non-empty and has no `/` and `ext` has no `.` or `/` (except for the name `..`) |
| Loader.CombinedSource | lib/loader.js:58 | with a truthy `data` option the source is `data`, then the line end, then the content; otherwise exactly the content |
| Loader.WithOutputStyle | lib/loader.js:85-87 | an explicit style is never overwritten; under minimize the style ends up truthy; only this key changes |
| Loader.WithSourceMapOptions | lib/loader.js:92-113 | with `sourceMap` truthy: it becomes the map path, and `sourceMapRoot`, `omitSourceMapUrl` and `sourceMapContents` keep any present value (even a falsy one) or else get `cwd`, `true`, `true`; with it falsy nothing changes; no other key changes |
| Loader.WithIndentedSyntax | lib/loader.js:116-123 | `indentedSyntax` becomes a boolean that is true exactly when the lowercased extension is `.sass` and the key is absent, or the given value is truthy |
| Loader.ProxyCustomImporters | lib/loader.js:126 | one proxy per given importer (one for a single function, one per array element), in order, each for the resource path |
| Loader.WithImporters | lib/loader.js:126-132 | the chain is the proxied custom importers (or none), then the sassport importer, then the webpack importer; its length is the custom count plus 2, and the webpack importer comes last |
| Loader.WithIncludePaths | lib/loader.js:135-136 | the given include paths in their order (or none), then the resource directory as the single new last entry |
| Loader.NormalizedOptionsByKey | lib/loader.js:56-136 | every key of the job's options is set by its own rule applied to the caller's options: the rules do not interfere, and unknown keys pass through |
| Loader.RulesIdempotent | lib/loader.js:85-123 | applying the output-style, source-map or syntax rule a second time changes nothing |
| Loader.ScssIsNotIndented | lib/loader.js:116-123 | a `.scss` resource without the key compiles with `indentedSyntax` false |
| Loader.SassIsIndented | lib/loader.js:116-123 | a `.sass` resource in any ASCII letter case, without the key, compiles with `indentedSyntax` true |
| Loader.ScssFileIsNotIndented | lib/loader.js:116-123 | a resource path `dir/base.scss` (plain `base`) without the key compiles with `indentedSyntax` false |
| Loader.SassFileIsIndented | lib/loader.js:116-123 | a resource path `dir/base.sass` (plain `base`) without the key compiles with `indentedSyntax` true |
| Loader.SetOutputStyle | lib/loader.js:85-87 | the block's result is the output-style rule's |
| Loader.SetSourceMapOptions | lib/loader.js:92-113 | the block's result (one overwrite and three conditional defaults) is the source-map rule's |
| Loader.SetIndentedSyntax | lib/loader.js:116-123 | the block's result is the syntax rule's |
| Loader.SetImporters | lib/loader.js:126-132 | the block's result (the custom list and then two `push`es) is the importer-chain rule's |
| Loader.SetIncludePaths | lib/loader.js:135-136 | the block's result is the include-path rule's |
| Loader.SassportLoader | lib/loader.js:32-136 | synchronous use gets the fixed error; a blank combined source gets the original content back and no job; otherwise exactly one job carrying the modules and the normalised options |
| Loader.BlankSourceNeverQueued | lib/loader.js:58-82 | a whitespace-only source takes the early return when the `data` prefix is absent or falsy, or is whitespace only together with the line end |
| Loader.NormalizedMap | lib/loader.js:146-160 | `file` is absent; `sources[0]` is the normalised path of the resource relative to `cwd`; the other sources are normalised in place and the length is kept (an empty list becomes length 1); `sourceRoot` is normalised; other keys are kept |
| Loader.MaterializedMap | lib/loader.js:146-163 | the map is `null` exactly when the compiler gave none, an empty text or `"{}"`; otherwise it is the rewritten map (by definition) |
| Loader.AddIncludedFilesToWebpack | lib/loader.js:45-52 | every included file is appended to the dependency log, normalised, in order, and nothing else changes |
| Loader.OnComplete | lib/loader.js:138-167 | on failure: the formatted error and no CSS, and the only dependency added is the error's file, when it has one; on success: the CSS and the materialised map, with every included file registered normalised and in order |
| Loader.ThreadPoolSize | lib/loader.js:23 | definition: the variable's text when it is set and non-empty, otherwise the number 4 |
| Loader.StringToInteger | lib/loader.js:24 | the model converts only decimal numerals (signed, whitespace-padded, or empty, which gives 0) to their value; every other text gives `None` |
| Loader.QueueConcurrency | lib/loader.js:23-24 | without the variable (or with it empty) the concurrency is 3; otherwise it is the converted pool size minus 1, and it is undefined when the text is not an integer numeral |
| Loader.DigitsReadAsThemselves | lib/loader.js:24 | converting a decimal numeral to a number gives its value |
| Loader.ConfiguredConcurrency | lib/loader.js:23-24 | a configured pool of `n` gives a concurrency of `n - 1`, with no maximum |
| Loader.DefaultConcurrency | lib/loader.js:23-24 | an unset or empty variable gives a concurrency of 3; a pool of 1 gives 0 |
| CreateSpec.RewriteUrl | test/tools/createSpec.js:27-31 | a URL ending in `.css` is unchanged; a leading `~bootstrap-sass` is replaced by the bootstrap path and the rest is untouched (a bootstrap path that starts with `~` then goes through the tilde rule); any other leading `~` becomes the node-modules path; a URL without a leading `~` is unchanged |
| CreateSpec.Importer | test/tools/createSpec.js:26-35 | the importer never declines: it always answers with a file; that file is the rewritten URL by definition |
| CreateSpec.Keep | test/tools/createSpec.js:16-18 | an entry is kept exactly when its extension is `.` + `ext` and its name does not start with `error` |
| CreateSpec.FileWithoutExt | test/tools/createSpec.js:21 | the stem is the name without its last `ext.length + 1` characters (empty when the name is shorter) |
| CreateSpec.KeptEntryShape | test/tools/createSpec.js:16-21 | a kept entry is its non-empty stem, a `.`, and `ext` |
| CreateSpec.KeptExtIsPlain | test/tools/createSpec.js:17 | no entry is kept for an `ext` that contains `.` or `/` |
| CreateSpec.NamedEntryKept | test/tools/createSpec.js:16-21 | `stem.ext` is kept exactly when it does not start with `error`, and `stem` is its stem |
| CreateSpec.KeptMembership | test/tools/createSpec.js:15-18 | an entry gets a spec exactly when it is listed and passes the filter |
| CreateSpec.KeptAll | test/tools/createSpec.js:15-18 | a listing whose every entry passes the filter is kept whole |
| CreateSpec.Outputs | test/tools/createSpec.js:19-41 | definition: one spec per kept entry, in order, named `<stem>.css` and holding that entry's rendered CSS |
| CreateSpec.OutputNamedAfterStem | test/tools/createSpec.js:21-41 | the spec for a kept `stem.ext` is written as `stem.css` |
| CreateSpec.CreateSpecs | test/tools/createSpec.js:15-42 | the walk writes exactly the specs of the kept entries, in listing order |

## Left out

- The webpack host callbacks `this.async`, `this.cacheable`, `this.resolve`, `this.addDependency` and `this.dependency` are not called. Their effects are the dependency log and the result value. Caching is not modelled.
- The sassport instance, `sassportInstance.render`, `renderSync` and the compiler's CSS are foreign code. In the spec generator, the compiler run is the parameter `render`.
- The `onRequire` hook (lib/loader.js:67-73) adds dependencies when the compiler calls it. It is left out because that call happens inside the compiler.
- The neo-async queue's scheduling is left out. Only its concurrency limit and the job pushed onto it are modelled.
- `lib/formatSassError.js` is not part of this model. The error formatter is a parameter of `Loader.OnComplete`.
- `lib/proxyCustomImporters.js`, `lib/webpackImporter.js` and sassport's `createSassportImporter` are not part of this model. The importers they make are tags (`Function` values).
- `Loader.ProxyCustomImporters`: its contract is not the real function's. It is an assumed shape: one wrapper per given importer, in order.
- `merge.recursive` is not modelled. The loader's copy is a record value, which the caller's options never alias.
- `JSON.parse` is not modelled: the compiler's map is given together with its parsed form.
- `Buffer.toString` is not modelled: the CSS is a string.
- A source map without `sources` or `sourceRoot` makes the source throw. That case is not modelled: both fields always exist in `SourceMap`.
- `path.dirname`, `path.relative`, `path.normalize` and `path.join` are abstract functions. Only `path.extname` is given concretely, with POSIX semantics.
- `Text.LowerAscii`: lowercases ASCII letters only. Full Unicode `toLowerCase` is not modelled. The two agree on the one comparison the loader makes, against `.sass`.
- Option values are limited to their documented types. `data` and `outputStyle` are strings, and `modules` and `includePaths` are arrays. A truthy value of another type is not modelled: for instance, a string `includePaths` would make `.concat` (lib/loader.js:135-136) build a string.
- `Options.others` is taken to hold no recognised key name; nothing in the type enforces this.
- Plain JavaScript objects have no case of their own in `JsValue`. An object-valued option (a sassport module, say) is stood in for by a truthy case.
- JavaScript numbers are modelled as integers. `NaN`, `-0`, fractions and floating point are not modelled.
- `Loader.StringToInteger` and `Loader.QueueConcurrency`: only decimal integer numerals (signed, with surrounding whitespace) are evaluated. Hexadecimal, binary, octal, exponent, fractional and `Infinity` forms give `None`, as does any non-numeric text. For non-numeric text the source would compute `NaN`.
- `Text.ReplacePrefix`: `$` patterns in the replacement string are not interpreted. The generated paths contain none.
- The spec generator's `fs.readdirSync`, `fs.writeFileSync` and its `path.join`, `path.resolve` and `path.relative` computations are not modelled. The two rewrite targets are parameters. The directory listing is a sequence. The files written are a sequence of names and contents.
- `test/index.test.js` is an integration harness with no logic of its own. It is not modelled.
