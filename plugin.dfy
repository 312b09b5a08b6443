/**
 * The plugin instance `prefetchChunk(options)`: the set of modules tagged for
 * prefetching, grown by `resolveId` and read by `transformIndexHtml`, and the
 * loader for the virtual marker module.
 */
module Plugin {
  import opened Wrappers
  import opened RequestQuery
  import opened AssetUrl
  import opened PrefetchTags

  /** The reserved id that tags its importer. */
  const VirtualId: string := "virtual:prefetch"

  /** The id `resolveId` hands back for the marker: the reserved id behind a NUL sentinel. */
  const ResolvedVirtualId: string := "\0virtual:prefetch"

  /** The plugin's options; `prefetchLegacyChunks` defaults to false. */
  datatype Options = Options(prefetchLegacyChunks: bool)

  /** One call of `resolveId(id, importer)`. */
  datatype Request = Request(id: string, importer: Option<string>)

  /** The module one resolution tags: a truthy importer of the marker, or an id carrying a `prefetch` query key. */
  function TagOf(req: Request): Option<string> {
    if req.id == VirtualId then
      if req.importer.Some? && req.importer.value != "" then Some(req.importer.value) else None
    else if HasPrefetchQuery(req.id) then Some(req.id)
    else None
  }

  /** The modules named by a sequence of tags, one tag per resolution. */
  function Tagged(tags: seq<Option<string>>): set<string> {
    if tags == [] then {}
    else
      var last := tags[|tags| - 1];
      Tagged(tags[..|tags| - 1]) + (if last.Some? then {last.value} else {})
  }

  /** A query-tagged id always contains a `?`. */
  lemma QueryTaggedHasQuestionMark(id: string)
    ensures HasPrefetchQuery(id) ==> '?' in id
  {
    ParseRequestQueryShape(id);
    if HasPrefetchQuery(id) {
      var q, e :| IsFirstQuery(id, q) && IsSearchEnd(id, q, e) && q + 1 < e &&
        ParseRequestQuery(id).value == ParseSearchParams(id[q + 1..e]);
      assert id[q] == '?';
    }
  }

  /** The marker id itself is never tagged by a query. */
  lemma MarkerNotQueryTagged()
    ensures !HasPrefetchQuery(VirtualId)
  {
    QueryTaggedHasQuestionMark(VirtualId);
    assert '?' !in VirtualId;
  }

  /** One resolution tags `x` exactly when it is the marker imported by `x`, or `x` itself carrying a `prefetch` query key. */
  lemma TagOfIff(req: Request, x: string)
    ensures TagOf(req) == Some(x) <==>
      || (req.id == VirtualId && req.importer == Some(x) && x != "")
      || (req.id == x && HasPrefetchQuery(x))
  {
    MarkerNotQueryTagged();
  }

  /** After any sequence of resolutions, a module is in the set exactly when one of them tagged it. */
  lemma {:induction false} TaggedMembers(tags: seq<Option<string>>, x: string)
    ensures x in Tagged(tags) <==> Some(x) in tags
  {
    if tags != [] {
      var init := tags[..|tags| - 1];
      TaggedMembers(init, x);
      assert tags == init + [tags[|tags| - 1]];
    }
  }

  /** Resolutions only ever add: later calls never remove a tagged module. */
  lemma {:induction false} TaggedGrows(tags: seq<Option<string>>, more: seq<Option<string>>)
    ensures Tagged(tags) <= Tagged(tags + more)
    decreases |more|
  {
    if more == [] {
      assert tags + more == tags;
    } else {
      var init := more[..|more| - 1];
      TaggedGrows(tags, init);
      assert (tags + more)[..|tags + more| - 1] == tags + init;
    }
  }

  /** `load(id)`: empty module text for exactly the resolved marker id, nothing for any other id. */
  function Load(id: string): (r: Option<string>)
    ensures r.Some? <==> id == ResolvedVirtualId
    ensures r.Some? ==> r.value == ""
  {
    if id == ResolvedVirtualId then Some("") else None
  }

  /** One plugin instance and its per-build state. */
  class PrefetchChunk {
    const options: Options
    var prefetchModules: set<string>
    /** The tag of each `resolveId` call seen so far, in order. */
    ghost var tags: seq<Option<string>>

    /** The tagged set is exactly what the resolutions seen so far have tagged. */
    ghost predicate Valid()
      reads this
    {
      prefetchModules == Tagged(tags)
    }

    /** `prefetchChunk(options)`: a fresh instance with nothing tagged. */
    constructor (options: Options)
      ensures Valid()
      ensures this.options == options && prefetchModules == {} && tags == []
    {
      this.options := options;
      prefetchModules := {};
      tags := [];
    }

    /**
     * `resolveId(id, importer)`: the marker id tags a truthy importer and
     * resolves to the sentinel id; any other id is tagged when it carries a
     * `prefetch` query key and resolves to nothing.
     */
    method ResolveId(id: string, importer: Option<string>) returns (r: Option<string>)
      requires Valid()
      modifies this
      ensures Valid()
      ensures tags == old(tags) + [TagOf(Request(id, importer))]
      ensures id == VirtualId ==> r == Some(ResolvedVirtualId)
      ensures id == VirtualId && importer.Some? && importer.value != "" ==>
        prefetchModules == old(prefetchModules) + {importer.value}
      ensures id == VirtualId && (importer.None? || importer.value == "") ==> prefetchModules == old(prefetchModules)
      ensures id != VirtualId ==> r == None
      ensures id != VirtualId ==> prefetchModules == old(prefetchModules) + (if HasPrefetchQuery(id) then {id} else {})
    {
      tags := tags + [TagOf(Request(id, importer))];
      assert tags[..|tags| - 1] == old(tags);
      if id == VirtualId {
        if importer.Some? && importer.value != "" {
          prefetchModules := prefetchModules + {importer.value};
        }
        assert "\0" + id == ResolvedVirtualId;
        return Some("\0" + id);
      }
      var query := ParseRequestQuery(id);
      if query.Some? && HasKey(query.value, "prefetch") {
        prefetchModules := prefetchModules + {id};
      }
      r := None;
    }

    /**
     * One tagged module's share of `transformIndexHtml`: the chunk's own
     * entry, then one entry per stylesheet in `viteMetadata.importedCss`,
     * appended to the entries `files` collected for `done` so far.
     */
    method CollectBlock(chunk: BundleItem, htmlFile: HtmlFile, config: Config,
                        files: seq<PrefetchFile>, ghost done: seq<PlannedFile>)
      returns (r: Result<seq<PrefetchFile>, UrlError>)
      requires chunk.OutputChunk?
      requires Urls(done, htmlFile, config) == Ok(files)
      ensures r == Urls(done + Block(chunk), htmlFile, config)
    {
      var chunkUrl := ToAssetPathFromHtml(chunk.fileName, htmlFile, config);
      BlockEntryStep(done, chunk, files, htmlFile, config);
      if chunkUrl.Err? {
        return Err(chunkUrl.error);
      }
      var prefetchFiles := files + [PrefetchFile(chunkUrl.value, None)];
      var importedCss := chunk.importedCss;
      if importedCss.Some? {
        var css := importedCss.value;
        for k := 0 to |css|
          invariant Urls(done + BlockPrefix(chunk, k), htmlFile, config) == Ok(prefetchFiles)
        {
          var cssUrl := ToAssetPathFromHtml(css[k], htmlFile, config);
          BlockStyleStep(done, chunk, k, prefetchFiles, htmlFile, config);
          if cssUrl.Err? {
            return Err(cssUrl.error);
          }
          prefetchFiles := prefetchFiles + [PrefetchFile(cssUrl.value, Some("style"))];
        }
      }
      BlockPrefixOfBlock(chunk, |CssFiles(chunk)|);
      r := Ok(prefetchFiles);
    }

    /**
     * One chunk's share of `transformIndexHtml`: for each of its module ids
     * that is tagged, the entries of `CollectBlock`, appended to `files`.
     */
    method CollectChunk(chunk: BundleItem, htmlFile: HtmlFile, config: Config,
                        files: seq<PrefetchFile>, ghost done: seq<PlannedFile>)
      returns (r: Result<seq<PrefetchFile>, UrlError>)
      requires chunk.OutputChunk?
      requires Urls(done, htmlFile, config) == Ok(files)
      ensures r == Urls(done + ChunkPlanned(chunk, prefetchModules), htmlFile, config)
    {
      var ids := chunk.modules;
      var prefetchFiles := files;
      assert ids[..0] == [];
      assert done + ModulePlanned(chunk, ids[..0], prefetchModules) == done;
      for j := 0 to |ids|
        invariant Urls(done + ModulePlanned(chunk, ids[..j], prefetchModules), htmlFile, config) == Ok(prefetchFiles)
      {
        ghost var planned := ModulePlanned(chunk, ids[..j], prefetchModules);
        ModulePlannedStep(done, chunk, ids, j, prefetchModules);
        if ids[j] in prefetchModules {
          var block := CollectBlock(chunk, htmlFile, config, prefetchFiles, done + planned);
          if block.Err? {
            ModuleUrlsErr(done, chunk, j + 1, prefetchModules, htmlFile, config);
            return block;
          }
          prefetchFiles := block.value;
        }
      }
      assert ids[..|ids|] == ids;
      r := Ok(prefetchFiles);
    }

    /**
     * `transformIndexHtml(html, { filename, bundle })`: without a bundle the
     * page is left as it is; otherwise the candidate chunks are walked in
     * order and every entry collected becomes one prefetch link tag.
     */
    method TransformIndexHtml(html: string, htmlFile: HtmlFile, bundle: Option<seq<BundleItem>>, config: Config)
      returns (r: Result<TransformOutcome, UrlError>)
      ensures r == TransformSpec(html, htmlFile, bundle, config, options.prefetchLegacyChunks, prefetchModules)
    {
      if bundle.None? {
        return Ok(Unchanged(html));
      }
      var chunks := Candidates(bundle.value, options.prefetchLegacyChunks);
      var prefetchFiles: seq<PrefetchFile> := [];
      assert chunks[..0] == [];
      for i := 0 to |chunks|
        invariant forall c :: c in chunks[..i] ==> c.OutputChunk?
        invariant Urls(PlannedFiles(chunks[..i], prefetchModules), htmlFile, config) == Ok(prefetchFiles)
      {
        assert chunks[i] in chunks;
        ghost var before := PlannedFiles(chunks[..i], prefetchModules);
        PlannedFilesSnoc(chunks, i, prefetchModules);
        var collected := CollectChunk(chunks[i], htmlFile, config, prefetchFiles, before);
        if collected.Err? {
          assert forall c :: c in chunks[..i + 1] ==> c in chunks;
          PlannedFilesPrefix(chunks, i + 1, prefetchModules);
          UrlsErrPrefix(PlannedFiles(chunks[..i + 1], prefetchModules), PlannedFiles(chunks, prefetchModules), htmlFile, config);
          return Err(collected.error);
        }
        prefetchFiles := collected.value;
      }
      assert chunks[..|chunks|] == chunks;
      r := Ok(WithTags(html, ToTags(prefetchFiles)));
    }
  }
}
