/**
 * What `transformIndexHtml` computes from a finished bundle: the candidate
 * chunks, the files to prefetch for the tagged modules, their URLs and the
 * `<link rel="prefetch">` tags.
 */
module PrefetchTags {
  import opened Wrappers
  import opened AssetUrl

  /** One value of the output bundle. */
  datatype BundleItem =
    | OutputChunk(fileName: string, isEntry: bool, modules: seq<string>, importedCss: Option<seq<string>>)
    | OutputAsset(fileName: string)

  /** A file to prefetch before its URL is known: a chunk, or a stylesheet (`as: 'style'`). */
  datatype PlannedFile = PlannedFile(file: string, isStyle: bool)

  /** An entry `{ href, as? }` of `prefetchFiles`. */
  datatype PrefetchFile = PrefetchFile(href: string, asType: Option<string>)

  /** The attributes of one generated link: `rel`, the entry's `href` and `as`, then `crossorigin`. */
  datatype LinkAttrs = LinkAttrs(rel: string, href: string, asType: Option<string>, crossorigin: bool)

  /** A tag descriptor handed back to the host. */
  datatype HtmlTag = HtmlTag(tag: string, attrs: LinkAttrs, injectTo: string)

  /** What the hook returns: the html alone, or the html with tags. */
  datatype TransformOutcome = Unchanged(html: string) | WithTags(html: string, tags: seq<HtmlTag>)

  /** `s.includes(sub)`. */
  predicate Contains(s: string, sub: string) {
    exists i :: 0 <= i <= |s| && sub <= s[i..]
  }

  /** The filter over the bundle: a chunk, not an entry, and not a legacy chunk unless those are wanted. */
  predicate IsCandidate(item: BundleItem, prefetchLegacyChunks: bool) {
    item.OutputChunk? && !item.isEntry && (prefetchLegacyChunks || !Contains(item.fileName, "-legacy"))
  }

  /** `Object.values(bundle).filter(...)`: the candidate chunks, in bundle order. */
  function Candidates(bundle: seq<BundleItem>, prefetchLegacyChunks: bool): (chunks: seq<BundleItem>)
    ensures forall c :: c in chunks ==> c in bundle && IsCandidate(c, prefetchLegacyChunks)
    ensures forall c :: c in bundle && IsCandidate(c, prefetchLegacyChunks) ==> c in chunks
    ensures |chunks| <= |bundle|
  {
    if bundle == [] then []
    else
      var head := if IsCandidate(bundle[0], prefetchLegacyChunks) then [bundle[0]] else [];
      head + Candidates(bundle[1..], prefetchLegacyChunks)
  }

  /** The filter keeps the order of the bundle: it distributes over concatenation. */
  lemma {:induction false} CandidatesAppend(a: seq<BundleItem>, b: seq<BundleItem>, legacy: bool)
    ensures Candidates(a + b, legacy) == Candidates(a, legacy) + Candidates(b, legacy)
  {
    if a == [] {
      assert a + b == b;
    } else {
      var head := if IsCandidate(a[0], legacy) then [a[0]] else [];
      CandidatesAppend(a[1..], b, legacy);
      assert (a + b)[0] == a[0];
      assert (a + b)[1..] == a[1..] + b;
      assert Candidates(a + b, legacy) == head + Candidates(a[1..] + b, legacy);
      assert Candidates(a, legacy) == head + Candidates(a[1..], legacy);
    }
  }

  /** The chunk's `viteMetadata.importedCss`, empty when absent. */
  function CssFiles(c: BundleItem): seq<string>
    requires c.OutputChunk?
  {
    match c.importedCss
    case None => []
    case Some(css) => css
  }

  /** One stylesheet entry per file, in order. */
  function StyleFiles(css: seq<string>): (r: seq<PlannedFile>)
    ensures |r| == |css|
  {
    if css == [] then [] else StyleFiles(css[..|css| - 1]) + [PlannedFile(css[|css| - 1], true)]
  }

  /** Style entry `i` names stylesheet `i`. */
  lemma {:induction false} StyleFilesAt(css: seq<string>)
    ensures forall i :: 0 <= i < |css| ==> StyleFiles(css)[i] == PlannedFile(css[i], true)
  {
    if css != [] {
      var init := css[..|css| - 1];
      StyleFilesAt(init);
      assert forall i :: 0 <= i < |init| ==> init[i] == css[i];
    }
  }

  /** One more stylesheet adds one more style entry at the end. */
  lemma StyleFilesSnoc(css: seq<string>, k: nat)
    requires k < |css|
    ensures StyleFiles(css[..k + 1]) == StyleFiles(css[..k]) + [PlannedFile(css[k], true)]
  {
    assert css[..k + 1][..k] == css[..k];
  }

  /** What one tagged module of a chunk adds: the chunk itself, then each of its stylesheets. */
  function Block(c: BundleItem): seq<PlannedFile>
    requires c.OutputChunk?
  {
    [PlannedFile(c.fileName, false)] + StyleFiles(CssFiles(c))
  }

  /** The chunk's entry followed by its first `k` stylesheets. */
  function BlockPrefix(c: BundleItem, k: nat): seq<PlannedFile>
    requires c.OutputChunk? && k <= |CssFiles(c)|
  {
    [PlannedFile(c.fileName, false)] + StyleFiles(CssFiles(c)[..k])
  }

  /** Every such prefix begins the block, and the one with all stylesheets is the block. */
  lemma BlockPrefixOfBlock(c: BundleItem, k: nat)
    requires c.OutputChunk? && k <= |CssFiles(c)|
    ensures BlockPrefix(c, k) <= Block(c)
    ensures k == |CssFiles(c)| ==> BlockPrefix(c, k) == Block(c)
  {
    var css := CssFiles(c);
    var part, b := BlockPrefix(c, k), Block(c);
    StyleFilesAt(css);
    StyleFilesAt(css[..k]);
    assert forall m :: 1 <= m < |part| ==> part[m] == StyleFiles(css[..k])[m - 1] == b[m];
    if k == |css| {
      assert css[..k] == css;
    }
  }

  /** A block names the chunk as its one script entry and the chunk's stylesheets as its style entries. */
  lemma BlockMembers(c: BundleItem, f: string)
    requires c.OutputChunk?
    ensures PlannedFile(f, false) in Block(c) <==> f == c.fileName
    ensures PlannedFile(f, true) in Block(c) <==> f in CssFiles(c)
  {
    var css := CssFiles(c);
    var b := Block(c);
    StyleFilesAt(css);
    if PlannedFile(f, true) in b {
      var i :| 0 <= i < |b| && b[i] == PlannedFile(f, true);
      assert b[i] == StyleFiles(css)[i - 1];
    }
    if f in css {
      var i :| 0 <= i < |css| && css[i] == f;
      assert b[i + 1] == PlannedFile(f, true);
    }
  }

  /** The entries the chunk's modules `ids` add, walking the ids in order. */
  function ModulePlanned(c: BundleItem, ids: seq<string>, tagged: set<string>): seq<PlannedFile>
    requires c.OutputChunk?
  {
    if ids == [] then []
    else ModulePlanned(c, ids[..|ids| - 1], tagged) + (if ids[|ids| - 1] in tagged then Block(c) else [])
  }

  /** The entries one chunk adds. */
  function ChunkPlanned(c: BundleItem, tagged: set<string>): seq<PlannedFile>
    requires c.OutputChunk?
  {
    ModulePlanned(c, c.modules, tagged)
  }

  /** All entries, chunk by chunk in order, before URLs are computed. */
  function PlannedFiles(chunks: seq<BundleItem>, tagged: set<string>): seq<PlannedFile>
    requires forall c :: c in chunks ==> c.OutputChunk?
  {
    if chunks == [] then []
    else PlannedFiles(chunks[..|chunks| - 1], tagged) + ChunkPlanned(chunks[|chunks| - 1], tagged)
  }

  /** `b` repeated `k` times, end to end. */
  function RepeatSeq<T>(b: seq<T>, k: nat): seq<T> {
    if k == 0 then [] else RepeatSeq(b, k - 1) + b
  }

  /** How many of the ids are tagged, counted with repetition. */
  function TaggedCount(ids: seq<string>, tagged: set<string>): nat {
    if ids == [] then 0
    else TaggedCount(ids[..|ids| - 1], tagged) + (if ids[|ids| - 1] in tagged then 1 else 0)
  }

  /** The chunk has a module that is tagged for prefetching. */
  predicate HasTaggedModule(c: BundleItem, tagged: set<string>)
    requires c.OutputChunk?
  {
    exists m :: m in c.modules && m in tagged
  }

  /** Equal entries are not merged: a chunk contributes one whole block per tagged module. */
  lemma {:induction false} ModulePlannedIsRepeat(c: BundleItem, ids: seq<string>, tagged: set<string>)
    requires c.OutputChunk?
    ensures ModulePlanned(c, ids, tagged) == RepeatSeq(Block(c), TaggedCount(ids, tagged))
  {
    if ids != [] {
      ModulePlannedIsRepeat(c, ids[..|ids| - 1], tagged);
    }
  }

  /** A chunk with two tagged modules and no stylesheets plans its own file twice: the entries are not merged. */
  lemma TwoTaggedModulesRepeat(c: BundleItem, tagged: set<string>)
    requires c.OutputChunk? && |c.modules| == 2 && c.modules[0] in tagged && c.modules[1] in tagged
    requires c.importedCss.None?
    ensures ChunkPlanned(c, tagged) == [PlannedFile(c.fileName, false), PlannedFile(c.fileName, false)]
  {
    var ids := c.modules;
    ModulePlannedIsRepeat(c, ids, tagged);
    assert ids[..1][..0] == [] && ids[..2] == ids && ids[..2][..1] == ids[..1];
    assert TaggedCount(ids[..0], tagged) == 0;
    assert TaggedCount(ids[..1], tagged) == 1;
    assert TaggedCount(ids, tagged) == 2;
    assert StyleFiles(CssFiles(c)) == [];
    var b := Block(c);
    assert b == [PlannedFile(c.fileName, false)];
    assert RepeatSeq(b, 1) == [] + b == b;
    assert RepeatSeq(b, 2) == b + b;
  }

  /** Some id is tagged exactly when the tagged count is positive. */
  lemma {:induction false} TaggedCountPositive(ids: seq<string>, tagged: set<string>)
    ensures TaggedCount(ids, tagged) > 0 <==> exists m :: m in ids && m in tagged
  {
    if ids != [] {
      var init := ids[..|ids| - 1];
      TaggedCountPositive(init, tagged);
      assert ids == init + [ids[|ids| - 1]];
      if exists m :: m in ids && m in tagged {
        var m :| m in ids && m in tagged;
        if m != ids[|ids| - 1] {
          assert m in init;
        }
      }
    }
  }

  /** An element of a repetition is an element of the repeated block, and the repetition is not empty. */
  lemma {:induction false} RepeatSeqMembers<T>(b: seq<T>, k: nat, x: T)
    ensures x in RepeatSeq(b, k) <==> k > 0 && x in b
  {
    if k > 0 {
      RepeatSeqMembers(b, k - 1, x);
    }
  }

  /** What one chunk adds: the members of its block, when one of its modules is tagged. */
  lemma ChunkPlannedMembers(c: BundleItem, tagged: set<string>, x: PlannedFile)
    requires c.OutputChunk?
    ensures x in ChunkPlanned(c, tagged) <==> HasTaggedModule(c, tagged) && x in Block(c)
  {
    ModulePlannedIsRepeat(c, c.modules, tagged);
    TaggedCountPositive(c.modules, tagged);
    RepeatSeqMembers(Block(c), TaggedCount(c.modules, tagged), x);
  }

  /** An entry is planned exactly when it belongs to the block of a chunk with a tagged module. */
  lemma {:induction false} PlannedFilesMembers(chunks: seq<BundleItem>, tagged: set<string>, x: PlannedFile)
    requires forall c :: c in chunks ==> c.OutputChunk?
    ensures x in PlannedFiles(chunks, tagged) <==> exists c :: c in chunks && HasTaggedModule(c, tagged) && x in Block(c)
  {
    if chunks != [] {
      var init, last := chunks[..|chunks| - 1], chunks[|chunks| - 1];
      assert chunks == init + [last];
      PlannedFilesMembers(init, tagged, x);
      ChunkPlannedMembers(last, tagged, x);
      if exists c :: c in chunks && HasTaggedModule(c, tagged) && x in Block(c) {
        var c :| c in chunks && HasTaggedModule(c, tagged) && x in Block(c);
        if c != last {
          assert c in init;
        }
      }
    }
  }

  /** Planning keeps the order of the chunks: it distributes over concatenation. */
  lemma {:induction false} PlannedFilesAppend(a: seq<BundleItem>, b: seq<BundleItem>, tagged: set<string>)
    requires forall c :: c in a + b ==> c.OutputChunk?
    ensures PlannedFiles(a + b, tagged) == PlannedFiles(a, tagged) + PlannedFiles(b, tagged)
  {
    if b != [] {
      var init := b[..|b| - 1];
      assert (a + b)[..|a + b| - 1] == a + init;
      PlannedFilesAppend(a, init, tagged);
    } else {
      assert a + b == a;
    }
  }

  /**
   * A chunk file is prefetched exactly when some item of the bundle with that
   * name is a non-entry chunk, allowed by the legacy option, with a tagged
   * module; a stylesheet exactly when such a chunk imported it.
   */
  lemma PrefetchedFiles(bundle: seq<BundleItem>, legacy: bool, tagged: set<string>, f: string)
    ensures PlannedFile(f, false) in PlannedFiles(Candidates(bundle, legacy), tagged) <==>
      exists c :: c in bundle && IsCandidate(c, legacy) && HasTaggedModule(c, tagged) && c.fileName == f
    ensures PlannedFile(f, true) in PlannedFiles(Candidates(bundle, legacy), tagged) <==>
      exists c :: c in bundle && IsCandidate(c, legacy) && HasTaggedModule(c, tagged) && f in CssFiles(c)
  {
    var chunks := Candidates(bundle, legacy);
    PlannedFilesMembers(chunks, tagged, PlannedFile(f, false));
    PlannedFilesMembers(chunks, tagged, PlannedFile(f, true));
    forall c | c in chunks
      ensures PlannedFile(f, false) in Block(c) <==> f == c.fileName
      ensures PlannedFile(f, true) in Block(c) <==> f in CssFiles(c)
    {
      BlockMembers(c, f);
    }
  }

  /** Walking one more module id adds that id's block when it is tagged. */
  lemma ModulePlannedSnoc(c: BundleItem, ids: seq<string>, j: nat, tagged: set<string>)
    requires c.OutputChunk? && j < |ids|
    ensures ModulePlanned(c, ids[..j + 1], tagged) ==
      ModulePlanned(c, ids[..j], tagged) + (if ids[j] in tagged then Block(c) else [])
  {
    assert ids[..j + 1][..j] == ids[..j];
  }

  /** Planning one more chunk adds what that chunk plans. */
  lemma PlannedFilesSnoc(chunks: seq<BundleItem>, i: nat, tagged: set<string>)
    requires forall c :: c in chunks ==> c.OutputChunk?
    requires i < |chunks|
    ensures PlannedFiles(chunks[..i + 1], tagged) == PlannedFiles(chunks[..i], tagged) + ChunkPlanned(chunks[i], tagged)
  {
    assert chunks[..i + 1][..i] == chunks[..i];
  }

  /** The plan after module `j`, following what was planned before the chunk. */
  lemma ModulePlannedStep(done: seq<PlannedFile>, c: BundleItem, ids: seq<string>, j: nat, tagged: set<string>)
    requires c.OutputChunk? && j < |ids|
    ensures ids[j] in tagged ==>
      done + ModulePlanned(c, ids[..j + 1], tagged) == done + ModulePlanned(c, ids[..j], tagged) + Block(c)
    ensures ids[j] !in tagged ==> ModulePlanned(c, ids[..j + 1], tagged) == ModulePlanned(c, ids[..j], tagged)
  {
    ModulePlannedSnoc(c, ids, j, tagged);
  }

  /** Walking fewer module ids plans a prefix of what walking them all plans. */
  lemma {:induction false} ModulePlannedPrefix(c: BundleItem, ids: seq<string>, n: nat, tagged: set<string>)
    requires c.OutputChunk? && n <= |ids|
    ensures ModulePlanned(c, ids[..n], tagged) <= ModulePlanned(c, ids, tagged)
    decreases |ids|
  {
    if n < |ids| {
      var init := ids[..|ids| - 1];
      assert init[..n] == ids[..n];
      ModulePlannedPrefix(c, init, n, tagged);
    } else {
      assert ids[..n] == ids;
    }
  }

  /** Planning fewer chunks plans a prefix of what planning them all plans. */
  lemma {:induction false} PlannedFilesPrefix(chunks: seq<BundleItem>, n: nat, tagged: set<string>)
    requires forall c :: c in chunks ==> c.OutputChunk?
    requires n <= |chunks|
    ensures PlannedFiles(chunks[..n], tagged) <= PlannedFiles(chunks, tagged)
    decreases |chunks|
  {
    if n < |chunks| {
      var init := chunks[..|chunks| - 1];
      assert init[..n] == chunks[..n];
      PlannedFilesPrefix(init, n, tagged);
    } else {
      assert chunks[..n] == chunks;
    }
  }

  /** The entry `{ href }` or `{ href, as: 'style' }` for a planned file, once its URL is known. */
  function Entry(p: PlannedFile, href: string): PrefetchFile {
    PrefetchFile(href, if p.isStyle then Some("style") else None)
  }

  /** The URLs of the planned files, in order; the first file whose URL throws aborts the whole walk. */
  function Urls(planned: seq<PlannedFile>, html: HtmlFile, config: Config): Result<seq<PrefetchFile>, UrlError> {
    if planned == [] then Ok([])
    else
      var last := planned[|planned| - 1];
      match Urls(planned[..|planned| - 1], html, config)
      case Err(e) => Err(e)
      case Ok(files) =>
        match ToAssetPathFromHtml(last.file, html, config)
        case Err(e) => Err(e)
        case Ok(href) => Ok(files + [Entry(last, href)])
  }

  /** When every URL is found, entry `i` carries the URL of planned file `i` and `as: 'style'` exactly for stylesheets. */
  lemma {:induction false} UrlsOk(planned: seq<PlannedFile>, html: HtmlFile, config: Config)
    requires Urls(planned, html, config).Ok?
    ensures var files := Urls(planned, html, config).value;
      && |files| == |planned|
      && forall i :: 0 <= i < |planned| ==>
           ToAssetPathFromHtml(planned[i].file, html, config) == Ok(files[i].href) &&
           files[i].asType == (if planned[i].isStyle then Some("style") else None)
  {
    if planned != [] {
      UrlsOk(planned[..|planned| - 1], html, config);
    }
  }

  /** The walk fails exactly when some planned file's URL throws, and then with the error of the first such file. */
  lemma {:induction false} UrlsErr(planned: seq<PlannedFile>, html: HtmlFile, config: Config)
    ensures Urls(planned, html, config).Err? <==>
      exists i :: 0 <= i < |planned| && ToAssetPathFromHtml(planned[i].file, html, config).Err?
    ensures Urls(planned, html, config).Err? ==>
      exists i :: 0 <= i < |planned| && ToAssetPathFromHtml(planned[i].file, html, config) == Err(Urls(planned, html, config).error) &&
        forall j :: 0 <= j < i ==> ToAssetPathFromHtml(planned[j].file, html, config).Ok?
  {
    if planned != [] {
      var init := planned[..|planned| - 1];
      UrlsErr(init, html, config);
      assert forall i :: 0 <= i < |init| ==> init[i] == planned[i];
    }
  }

  /** Once the walk has failed on a prefix, it fails with the same error on the whole sequence. */
  lemma {:induction false} UrlsErrPrefix(prefix: seq<PlannedFile>, planned: seq<PlannedFile>, html: HtmlFile, config: Config)
    requires prefix <= planned
    requires Urls(prefix, html, config).Err?
    ensures Urls(planned, html, config) == Urls(prefix, html, config)
    decreases |planned|
  {
    if |planned| > |prefix| {
      UrlsErrPrefix(prefix, planned[..|planned| - 1], html, config);
    } else {
      assert prefix == planned;
    }
  }

  /** Computing the URL of one more planned file extends the walk by its entry, or fails with its error. */
  lemma UrlsSnoc(done: seq<PlannedFile>, p: PlannedFile, html: HtmlFile, config: Config)
    ensures Urls(done + [p], html, config) ==
      match Urls(done, html, config)
      case Err(e) => Err(e)
      case Ok(files) =>
        match ToAssetPathFromHtml(p.file, html, config)
        case Err(e) => Err(e)
        case Ok(href) => Ok(files + [Entry(p, href)])
  {
    assert (done + [p])[..|done|] == done;
  }

  /** A walk that has failed after `prefix + a` fails the same way after `prefix + b` for any `b` that `a` begins. */
  lemma UrlsErrExtend(prefix: seq<PlannedFile>, a: seq<PlannedFile>, b: seq<PlannedFile>, html: HtmlFile, config: Config)
    requires a <= b
    requires Urls(prefix + a, html, config).Err?
    ensures Urls(prefix + b, html, config) == Urls(prefix + a, html, config)
  {
    assert (prefix + b)[..|prefix + a|] == prefix + a;
    UrlsErrPrefix(prefix + a, prefix + b, html, config);
  }

  /**
   * The first URL of a block, the chunk's own: found, it starts the block's
   * entries; thrown, it fails the walk over the whole block.
   */
  lemma BlockEntryStep(done: seq<PlannedFile>, c: BundleItem, files: seq<PrefetchFile>, html: HtmlFile, config: Config)
    requires c.OutputChunk?
    requires Urls(done, html, config) == Ok(files)
    ensures var u := ToAssetPathFromHtml(c.fileName, html, config);
      && (u.Ok? ==> Urls(done + BlockPrefix(c, 0), html, config) == Ok(files + [PrefetchFile(u.value, None)]))
      && (u.Err? ==> Urls(done + Block(c), html, config) == Err(u.error))
  {
    var entry := PlannedFile(c.fileName, false);
    assert StyleFiles(CssFiles(c)[..0]) == [];
    assert BlockPrefix(c, 0) == [entry];
    UrlsSnoc(done, entry, html, config);
    if ToAssetPathFromHtml(c.fileName, html, config).Err? {
      BlockPrefixOfBlock(c, 0);
      UrlsErrExtend(done, [entry], Block(c), html, config);
    }
  }

  /**
   * The URL of stylesheet `k` of a block: found, it adds a style entry;
   * thrown, it fails the walk over the whole block.
   */
  lemma BlockStyleStep(done: seq<PlannedFile>, c: BundleItem, k: nat, files: seq<PrefetchFile>, html: HtmlFile, config: Config)
    requires c.OutputChunk? && k < |CssFiles(c)|
    requires Urls(done + BlockPrefix(c, k), html, config) == Ok(files)
    ensures var u := ToAssetPathFromHtml(CssFiles(c)[k], html, config);
      && (u.Ok? ==> Urls(done + BlockPrefix(c, k + 1), html, config) == Ok(files + [PrefetchFile(u.value, Some("style"))]))
      && (u.Err? ==> Urls(done + Block(c), html, config) == Err(u.error))
  {
    var css := CssFiles(c);
    var style := PlannedFile(css[k], true);
    StyleFilesSnoc(css, k);
    assert done + BlockPrefix(c, k + 1) == done + BlockPrefix(c, k) + [style];
    UrlsSnoc(done + BlockPrefix(c, k), style, html, config);
    if ToAssetPathFromHtml(css[k], html, config).Err? {
      BlockPrefixOfBlock(c, k + 1);
      UrlsErrExtend(done, BlockPrefix(c, k + 1), Block(c), html, config);
    }
  }

  /** A walk that fails within the first `n` module ids of a chunk fails the same way over the whole chunk. */
  lemma ModuleUrlsErr(done: seq<PlannedFile>, c: BundleItem, n: nat, tagged: set<string>, html: HtmlFile, config: Config)
    requires c.OutputChunk? && n <= |c.modules|
    requires Urls(done + ModulePlanned(c, c.modules[..n], tagged), html, config).Err?
    ensures Urls(done + ChunkPlanned(c, tagged), html, config) == Urls(done + ModulePlanned(c, c.modules[..n], tagged), html, config)
  {
    ModulePlannedPrefix(c, c.modules, n, tagged);
    UrlsErrExtend(done, ModulePlanned(c, c.modules[..n], tagged), ChunkPlanned(c, tagged), html, config);
  }

  /** The link tag for one entry: `rel: 'prefetch'`, its `href` and `as`, `crossorigin`, into the head. */
  function ToTag(f: PrefetchFile): (t: HtmlTag)
    ensures t.tag == "link" && t.injectTo == "head"
    ensures t.attrs.rel == "prefetch" && t.attrs.crossorigin
    ensures t.attrs.href == f.href && t.attrs.asType == f.asType
  {
    HtmlTag("link", LinkAttrs("prefetch", f.href, f.asType, true), "head")
  }

  /** `Array.from(prefetchFiles, ...)`: one tag per entry, in order. */
  function ToTags(files: seq<PrefetchFile>): (tags: seq<HtmlTag>)
    ensures |tags| == |files|
    ensures forall i :: 0 <= i < |files| ==> tags[i] == ToTag(files[i])
  {
    seq(|files|, i requires 0 <= i < |files| => ToTag(files[i]))
  }

  /** The result `transformIndexHtml` promises for the given state and inputs. */
  function TransformSpec(
    html: string, htmlFile: HtmlFile, bundle: Option<seq<BundleItem>>, config: Config,
    prefetchLegacyChunks: bool, tagged: set<string>): Result<TransformOutcome, UrlError>
  {
    match bundle
    case None => Ok(Unchanged(html))
    case Some(items) =>
      match Urls(PlannedFiles(Candidates(items, prefetchLegacyChunks), tagged), htmlFile, config)
      case Err(e) => Err(e)
      case Ok(files) => Ok(WithTags(html, ToTags(files)))
  }

  /**
   * With a bundle the html comes back as it was, with one link per planned
   * file, in order, carrying that file's URL; the only failure is a URL
   * that throws.
   */
  lemma TransformSpecTags(
    html: string, htmlFile: HtmlFile, items: seq<BundleItem>, config: Config,
    legacy: bool, tagged: set<string>)
    ensures var r := TransformSpec(html, htmlFile, Some(items), config, legacy, tagged);
      var planned := PlannedFiles(Candidates(items, legacy), tagged);
      && (r.Err? <==> exists i :: 0 <= i < |planned| && ToAssetPathFromHtml(planned[i].file, htmlFile, config).Err?)
      && (r.Ok? ==>
            && r.value == WithTags(html, r.value.tags)
            && |r.value.tags| == |planned|
            && forall i :: 0 <= i < |planned| ==>
                 && r.value.tags[i].tag == "link" && r.value.tags[i].injectTo == "head"
                 && r.value.tags[i].attrs.rel == "prefetch" && r.value.tags[i].attrs.crossorigin
                 && ToAssetPathFromHtml(planned[i].file, htmlFile, config) == Ok(r.value.tags[i].attrs.href)
                 && r.value.tags[i].attrs.asType == (if planned[i].isStyle then Some("style") else None))
  {
    var planned := PlannedFiles(Candidates(items, legacy), tagged);
    var r := TransformSpec(html, htmlFile, Some(items), config, legacy, tagged);
    UrlsErr(planned, htmlFile, config);
    if Urls(planned, htmlFile, config).Ok? {
      var files := Urls(planned, htmlFile, config).value;
      UrlsOk(planned, htmlFile, config);
      assert r == Ok(WithTags(html, ToTags(files)));
      forall i | 0 <= i < |planned|
        ensures r.value.tags[i] == ToTag(files[i])
      {
      }
    } else {
      assert r.Err?;
    }
  }

  /** A file name in which no `-` has room for `legacy` after it does not include `-legacy`. */
  lemma NoLegacyMarker(s: string)
    requires forall i :: 0 <= i < |s| && s[i] == '-' ==> |s| - i < 7
    ensures !Contains(s, "-legacy")
  {
    forall i | 0 <= i <= |s|
      ensures !("-legacy" <= s[i..])
    {
      if i + 7 <= |s| {
        assert s[i..][0] == s[i];
      }
    }
  }

  /** A chunk built from one tagged module and importing no stylesheet plans just itself. */
  lemma SingleModulePlan(c: BundleItem, tagged: set<string>)
    requires c.OutputChunk? && |c.modules| == 1 && c.modules[0] in tagged && c.importedCss.None?
    ensures PlannedFiles([c], tagged) == [PlannedFile(c.fileName, false)]
  {
    var ids := c.modules;
    assert ids[..0] == [] && ids[..1] == ids;
    ModulePlannedSnoc(c, ids, 0, tagged);
    assert StyleFiles(CssFiles(c)) == [];
    assert Block(c) == [PlannedFile(c.fileName, false)];
    assert ChunkPlanned(c, tagged) == Block(c);
    assert [c][..0] == [] && [c][..1] == [c];
    PlannedFilesSnoc([c], 0, tagged);
  }

  /** The walk over one planned file whose URL is found yields its one entry. */
  lemma SingleUrl(p: PlannedFile, html: HtmlFile, config: Config)
    requires ToAssetPathFromHtml(p.file, html, config).Ok?
    ensures Urls([p], html, config) == Ok([Entry(p, ToAssetPathFromHtml(p.file, html, config).value)])
  {
    UrlsSnoc([], p, html, config);
    var files: seq<PrefetchFile> := [];
    assert [] + [p] == [p];
    assert files + [Entry(p, ToAssetPathFromHtml(p.file, html, config).value)] == [Entry(p, ToAssetPathFromHtml(p.file, html, config).value)];
  }

  /**
   * Module `a.js` is tagged; the bundle holds the non-entry chunk
   * `chunk-a.js` built from it and the entry chunk `main.js`. With base `/`
   * and no hook, the page gets exactly one prefetch link, to `/chunk-a.js`.
   */
  lemma ExampleTaggedImporter(chunkA: BundleItem, main: BundleItem, html: string, htmlFile: HtmlFile)
    requires chunkA == OutputChunk("chunk-a.js", false, ["a.js"], None)
    requires main == OutputChunk("main.js", true, ["main.js"], None)
    ensures TransformSpec(html, htmlFile, Some([chunkA, main]), Config("/", false, None), false, {"a.js"}) ==
      Ok(WithTags(html, [HtmlTag("link", LinkAttrs("prefetch", "/chunk-a.js", None, true), "head")]))
  {
    var config := Config("/", false, None);
    NoLegacyMarker(chunkA.fileName);
    assert [chunkA, main][1..] == [main] && [main][1..] == [];
    assert Candidates([chunkA, main], false) == [chunkA];
    SingleModulePlan(chunkA, {"a.js"});
    var entry := PlannedFile(chunkA.fileName, false);
    DefaultAssetPath(entry.file, htmlFile, config);
    assert config.base + entry.file == "/chunk-a.js";
    SingleUrl(entry, htmlFile, config);
    var files := [PrefetchFile("/chunk-a.js", None)];
    assert ToTags(files) == [ToTag(files[0])];
  }
}
