# vite-plugin-prefetch-chunk, modelled in Dafny

`vite-plugin-prefetch-chunk` is a Vite plugin that adds `<link rel="prefetch">` tags for lazily loaded chunks to the built HTML pages. There are two ways to tag a module for prefetching:

- a module that imports the reserved id `virtual:prefetch` tags itself;
- an import whose id carries a `prefetch` query key, such as `./foo.js?prefetch`, tags that id.

Each plugin instance keeps the set `prefetchModules` of tagged module ids:

- `resolveId` grows the set;
- `load` serves the marker module as empty text;
- `transformIndexHtml` walks the finished bundle.

For every non-entry chunk (legacy chunks only on request) and every tagged module id in that chunk, `transformIndexHtml` emits one link to the chunk and one `as: 'style'` link per stylesheet the chunk imports. The URLs follow Vite's rules for assets referenced from HTML:

- a user `renderBuiltUrl` hook may supply the URL itself;
- it may answer `{ relative: false }`, which gives the base followed by the file; for a URL written into HTML, `{ relative: true }` changes nothing, because the relative URL is built from `getBaseInHTML`, which is the base itself unless the base is `''` or `./`;
- it raises an error when it asks for a URL computed at run time;
- otherwise a relative base (`''` or `./`) gives `./` or `../`-prefixed URLs outside an SSR build, and in every other case (an SSR build included) the base is prepended to the file.

The model has five modules:

- `Wrappers`: `Option` and `Result`.
- `RequestQuery`: `requestQuerySplitRE` and `parseRequestQuery`. It covers the lookahead `?(?!.*[/|}])` with JavaScript's line terminators, the two-piece split, and the `&`/`=` structure `URLSearchParams` reads.
- `AssetUrl`: `toOutputFilePathInHtml`, `getBaseInHTML` and `toAssetPathFromHtml`, with the hook's answer as an input variant.
- `PrefetchTags`: the bundle as a datatype, the candidate filter, and the functions `transformIndexHtml` is specified against. Those functions compute the planned entries, their URLs and the link tags. Lemmas cover membership, order and the error case.
- `Plugin`: the plugin instance as the class `PrefetchChunk`. Its `prefetchModules` field is updated by `ResolveId`, and its `TransformIndexHtml` method has the source's nested loops. `Load` is a pure function.

A ghost history of the tag each `resolveId` call produced ties the set to the calls made so far.

Two points of the code are easy to misread, and the model follows the code in both:

- `prefetchFiles` is a `Set`, which suggests that equal entries are merged. But its elements are freshly built object literals, and a `Set` compares objects by identity, so nothing is ever merged. A chunk with two tagged modules yields its links twice (`PrefetchTags.ModulePlannedIsRepeat`, `PrefetchTags.TwoTaggedModulesRepeat`).
- `if (importer)` is a truthiness test, so an empty importer string is not added.

## Model

| member | source | states |
|---|---|---|
| RequestQuery.StopAheadIff | src/index.ts:79 | the lookahead's body matches from a position exactly when a slash, a vertical bar or a closing brace comes later with no line terminator before it |
| RequestQuery.SingleLineQualifies | src/index.ts:79 | on an id without line terminators, a `?` is a split point exactly when no slash, vertical bar or closing brace follows it anywhere |
| RequestQuery.FirstQualifyingShape | src/index.ts:79-82 | about the scan `FirstQualifying`: it returns the first split point at or after a position, and returns none only when there is none |
| RequestQuery.SplitRequestQueryShape | src/index.ts:79-82 | about `SplitRequestQuery`, which models `id.split(requestQuerySplitRE, 2)`: the split gives the whole id when no `?` qualifies; otherwise it gives the text before the first qualifying `?` and the text from after it to the next qualifying `?` or the end |
| RequestQuery.AdjacentQuestionMarkEndsSearch | src/index.ts:79-82 | a `?` right after the first split point is itself a split point, so it ends the search text at once and the search text is empty |
| RequestQuery.SearchNeverStartsWithQuestionMark | src/index.ts:79-82 | a non-empty search text never starts with `?`, because such a `?` would itself be a split point; so the leading `?` that `URLSearchParams` drops never occurs and needs no modelling |
| RequestQuery.SingleLineSearchHasNoQuestionMark | src/index.ts:79-82 | on a single-line id, the search text contains no `?` at all |
| RequestQuery.ExampleSplitPrefetchAndFoo | src/index.ts:82 | `b.js?prefetch&foo=bar` splits into `b.js` and `prefetch&foo=bar` |
| RequestQuery.SplitOn | src/index.ts:84 | the `&`-components contain no `&`, there is at least one, and joining them with `&` gives back the search text |
| RequestQuery.SplitOnWithout | src/index.ts:84 | a text without the separator is a single component |
| RequestQuery.SplitOnFirst | src/index.ts:84 | splitting `a` + separator + `b`, where `a` has no separator, gives `a` followed by the components of `b` |
| RequestQuery.NameOf | src/index.ts:84 | a component's name is its longest prefix without `=`, and ends at the end or at an `=` |
| RequestQuery.ParseParam | src/index.ts:84 | a component is split at its first `=`: without one it is a name with an empty value, with one it is name + `=` + value |
| RequestQuery.NameOfPrefix | src/index.ts:84 | the name of `n=v` is `n` when `n` has no `=` |
| RequestQuery.ParseParamRoundTrip | src/index.ts:84 | parsing `n=v` gives back `n` and `v` for any `n` without `=` |
| RequestQuery.ParseParamNameOnly | src/index.ts:84 | a component without `=` is a bare name with an empty value |
| RequestQuery.HasKeyAppend | src/index.ts:84 | two parameter lists together have a key exactly when one of them has it |
| RequestQuery.ParamsOfHasKey | src/index.ts:84 | the parsed parameters have a key exactly when some non-empty component is named by it |
| RequestQuery.FlagThenParam | src/index.ts:84 | `flag&name=value` parses to the bare flag followed by the pair `name`/`value` |
| RequestQuery.ExampleSearchPrefetchAndFoo | src/index.ts:84 | `prefetch&foo=bar` parses to `prefetch` with an empty value and `foo` with `bar` |
| RequestQuery.ParseRequestQueryShape | src/index.ts:81-86 | about `ParseRequestQuery`, which models `parseRequestQuery`: the result is null exactly when no `?` qualifies or the search text is empty; otherwise it holds the parameters of the search text |
| RequestQuery.SearchHasPrefetch | src/index.ts:83-84 | a search text gives a `prefetch` key exactly when it is non-empty and one of its `&`-components is named `prefetch` |
| RequestQuery.PrefetchQueryIff | src/index.ts:81-86 | about `HasPrefetchQuery`, which models the test `query && 'prefetch' in query` of src/index.ts:106-107: an id carries the `prefetch` key exactly when one `&`-component of the text between its first two split points is named `prefetch` |
| RequestQuery.ExamplePrefetchAndFoo | src/index.ts:81-86 | `b.js?prefetch&foo=bar` gives the keys `prefetch` and `foo`, so it is query-tagged |
| RequestQuery.ExampleSlashAfterQuery | src/index.ts:79-86 | `x?a/b` gives null, because its only `?` has a `/` after it |
| AssetUrl.ToOutputFilePathInHtml | src/index.ts:7-49 | the URL fails exactly when the hook returns an object with a truthy `runtime`, and the error carries that runtime, the host type and the file; a non-empty string from the hook is used verbatim; otherwise the URL is `toRelative`'s when relative (the hook's boolean `relative`, else a base of `''` or `./`) and not SSR, and base + file in every other case |
| AssetUrl.UpToRootShape | src/index.ts:55 | `path.posix.relative` from a root-relative path of n segments to the root is n-1 times `../` followed by `..` |
| AssetUrl.RelativeBaseShape | src/index.ts:53-57 | dropping the last two characters and joining `./` gives `./` at the root and one `../` per directory below it |
| AssetUrl.GetBaseInHtml | src/index.ts:50-59 | with a base of `''` or `./`, the result is `./` or one `../` per directory of the HTML file; with any other base, the base itself |
| AssetUrl.ToAssetPathFromHtml | src/index.ts:61-77 | a URL from an HTML file follows the hook rules with host type html; the default relative URL is the root prefix + file, and any other default URL is base + file |
| AssetUrl.DefaultAssetPath | src/index.ts:61-77 | without a hook, a relative base outside SSR gives the root prefix + file, and every other case gives base + file |
| AssetUrl.RelativeOverrideNoEffect | src/index.ts:37-39 | for a URL written into HTML, a hook answering `{ relative: true }` gives the same URL as no hook at all, under every base and SSR setting |
| AssetUrl.AbsoluteOverride | src/index.ts:37-47 | a hook answering `{ relative: false }` always gives the base followed by the file |
| AssetUrl.ExampleNestedRelative | src/index.ts:53-57 | with base `./`, `nested/index.html` refers to `assets/a.js` as `../assets/a.js` |
| PrefetchTags.Candidates | src/index.ts:122-126 | the candidates are exactly the bundle items that are non-entry chunks whose name does not include `-legacy` unless legacy chunks are wanted |
| PrefetchTags.CandidatesAppend | src/index.ts:122-126 | filtering keeps bundle order: it distributes over concatenation |
| PrefetchTags.NoLegacyMarker | src/index.ts:124 | a helper for `ExampleTaggedImporter`: a name in which no `-` has six characters after it does not include `-legacy`, so the legacy test of src/index.ts:124 lets it through |
| PrefetchTags.StyleFilesAt | src/index.ts:136-141 | style entry i is stylesheet i of `importedCss`, marked `as: 'style'` |
| PrefetchTags.BlockPrefixOfBlock | src/index.ts:131-141 | the chunk's entry followed by its first k stylesheets begins the full block, and equals it when k covers every stylesheet |
| PrefetchTags.BlockMembers | src/index.ts:131-141 | a tagged module's block has the chunk as its only script entry and exactly the chunk's stylesheets as style entries |
| PrefetchTags.ModulePlannedIsRepeat | src/index.ts:129-143 | about `ModulePlanned`, the entries the loop over a chunk's module ids plans: a chunk plans its whole block once per tagged module id, repeated end to end and never merged |
| PrefetchTags.TwoTaggedModulesRepeat | src/index.ts:127-143 | a chunk with two tagged modules and no stylesheets plans its own file twice |
| PrefetchTags.TaggedCountPositive | src/index.ts:129-130 | the count of tagged module ids is positive exactly when some module id is tagged |
| PrefetchTags.ChunkPlannedMembers | src/index.ts:129-143 | about `ChunkPlanned`, the entries one chunk plans: an entry comes from a chunk exactly when the chunk has a tagged module and the entry is in its block |
| PrefetchTags.PlannedFilesMembers | src/index.ts:128-145 | about `PlannedFiles`, the entries the loop over the candidate chunks plans, before URLs are computed: an entry is planned exactly when it is in the block of some chunk with a tagged module |
| PrefetchTags.PlannedFilesAppend | src/index.ts:128-145 | planning keeps chunk order: it distributes over concatenation |
| PrefetchTags.ModulePlannedPrefix | src/index.ts:129-144 | walking fewer module ids plans a prefix of what walking all of them plans |
| PrefetchTags.PlannedFilesPrefix | src/index.ts:128-145 | walking fewer chunks plans a prefix of what walking all of them plans |
| PrefetchTags.PrefetchedFiles | src/index.ts:122-145 | a chunk file is planned exactly when some bundle item with that name is a candidate with a tagged module; a stylesheet is planned exactly when such a candidate imports it |
| PrefetchTags.UrlsOk | src/index.ts:131-141 | about `Urls`, which computes each planned entry's `href` with `toAssetPathFromHtml`, in order: when no URL throws, entry i has the URL of planned file i and `as: 'style'` exactly for stylesheets |
| PrefetchTags.UrlsErr | src/index.ts:131-141 | about `Urls`: the walk fails exactly when some planned file's URL throws, and then with the error of the first such file |
| PrefetchTags.UrlsErrPrefix | src/index.ts:128-145 | once the walk has thrown on a prefix of the planned files, the whole walk throws the same error |
| PrefetchTags.BlockEntryStep | src/index.ts:131-133 | the chunk's own URL either starts the block's entries or ends the walk over the block with its error |
| PrefetchTags.BlockStyleStep | src/index.ts:136-141 | a stylesheet's URL either adds its `as: 'style'` entry or ends the walk over the block with its error |
| PrefetchTags.ModuleUrlsErr | src/index.ts:129-144 | an error within the first n module ids of a chunk is the error of the whole chunk |
| PrefetchTags.TransformSpecTags | src/index.ts:146-159 | about `TransformSpec`, the result `transformIndexHtml` must give (src/index.ts:120-159), and `ToTags`, which models `Array.from(prefetchFiles, ...)`: with a bundle, the html comes back unchanged with one tag per planned file, in order; each tag is a `link` into `head` with `rel: 'prefetch'`, `crossorigin`, that file's URL and `as: 'style'` exactly for stylesheets; the only failure is a URL that throws |
| PrefetchTags.ExampleTaggedImporter | src/index.ts:120-159 | with `a.js` tagged, a non-entry `chunk-a.js` built from it and an entry `main.js`, base `/` and no hook, the page gets exactly one link, to `/chunk-a.js`, and none to `main.js` |
| Plugin.QueryTaggedHasQuestionMark | src/index.ts:106-107 | an id that is query-tagged always contains a `?` |
| Plugin.MarkerNotQueryTagged | src/index.ts:100-107 | the marker id `virtual:prefetch` is never query-tagged |
| Plugin.TagOfIff | src/index.ts:99-110 | about `TagOf`, the module one `resolveId` call adds: one resolution tags x exactly when it resolves the marker with importer x, x non-empty, or when it resolves x itself and x carries the `prefetch` key |
| Plugin.TaggedMembers | src/index.ts:93-110 | after any sequence of resolutions, a module is tagged exactly when one of them tagged it |
| Plugin.TaggedGrows | src/index.ts:93-110 | later resolutions never remove a tagged module |
| Plugin.Load | src/index.ts:115-119 | empty module text for exactly the id `\0virtual:prefetch`, nothing for every other id |
| Plugin.PrefetchChunk.constructor | src/index.ts:92-93 | a new instance has the given options and no tagged modules |
| Plugin.PrefetchChunk.ResolveId | src/index.ts:99-110 | the marker always resolves to `\0virtual:prefetch` and adds its importer exactly when the importer is non-empty; any other id resolves to nothing and is added exactly when it carries the `prefetch` key; nothing else changes, and the set stays the union of all tags so far |
| Plugin.PrefetchChunk.CollectBlock | src/index.ts:130-142 | the entries after one tagged module are the URL walk over the planned files so far plus that chunk's block |
| Plugin.PrefetchChunk.CollectChunk | src/index.ts:129-144 | the entries after one chunk are the URL walk over the planned files so far plus what the chunk plans |
| Plugin.PrefetchChunk.TransformIndexHtml | src/index.ts:120-160 | without a bundle the html is returned as is; with one, the result is the tag list over the URL walk of all planned files, or the first URL error |

## Left out

- `configResolved` and the plugin-object plumbing (`name`, `order: 'pre'`) are not modelled. The resolved config is an input of `TransformIndexHtml`, because the host calls `configResolved` before any transform.
- `path.relative(config.root, htmlPath)` and `normalizePath` are not modelled, because they depend on the file system and the working directory. The HTML file's root-relative location is an input, a list of plain segments. An HTML file outside the root (a leading `..`) is outside the model.
- `path.posix.join` is modelled only for the strings it receives in `getBaseInHTML`: the empty string or a run of `../`.
- RequestQuery.ParseSearchParams: names and values are not percent-decoded, and `+` is not read as a space. `URLSearchParams` does both, so an id whose query component is `%70refetch` is tagged by the source but not by the model, because that decoding belongs to the host platform.
- RequestQuery.HasKey: it models only `'prefetch' in Object.fromEntries(...)`, which is key presence. Which value wins for a duplicate key is not modelled, because the plugin never reads the values.
- AssetUrl.ToOutputFilePathInHtml: the body of the user's `renderBuiltUrl` hook is not modelled; only the kind of value it returns is an input. A `null` result exists only as `NoResult`, which the source would not survive, since `typeof null` is `'object'` and reading `.runtime` from it throws. A non-string `runtime` is not modelled either. The same goes for a truthy non-string, non-object result, which the source would return verbatim.
- The thrown error is modelled as `UrlError`, which keeps the runtime, the host type and the file name, not the wording of the message.
- `config.build.ssr` is a boolean in the model; the source applies JavaScript truthiness to it.
- The bundle is a sequence in the order of `Object.values(bundle)`, and a chunk's `modules` is a sequence in the order of `Object.keys(chunk.modules)`. JavaScript puts integer-like keys first in both, and that rule is not modelled, because the host builds the bundle and its keys are file names and module ids. `importedCss` is `None` when `viteMetadata` or `importedCss` is missing; an empty set behaves the same.
- `prefetchFiles` is modelled as a sequence that only grows, not as a JavaScript `Set` of objects. Its iteration order and its never merging fresh objects are exactly a sequence's.
- The bodies of the two inner loops of `transformIndexHtml` are the helper methods `CollectChunk` and `CollectBlock`, so that each loop is proved on its own. A throw is an `Err` result, which the hook's caller receives in place of the exception.
- Concurrency and the host's build lifecycle are not modelled, because the plugin has none of its own.
- `build.config.ts` is packaging configuration with no logic and is not part of this model.
