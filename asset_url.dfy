/**
 * The URL under which an HTML file refers to a built asset:
 * `toOutputFilePathInHtml`, `getBaseInHTML` and `toAssetPathFromHtml`.
 */
module AssetUrl {
  import opened Wrappers

  /** The kind of file the URL is for. */
  datatype AssetType = Asset | Public

  /** The kind of file the URL is written into. */
  datatype HostType = Js | Css | Html

  /** The context object handed to `renderBuiltUrl`. */
  datatype UrlContext = UrlContext(hostId: string, hostType: HostType, assetType: AssetType, ssr: bool)

  /** What the user's `renderBuiltUrl` hook returns. */
  datatype HookResult =
    | UrlString(url: string)                                     // a string, used verbatim unless empty
    | Directive(runtime: Option<string>, relative: Option<bool>) // an object with optional `runtime` / boolean `relative`
    | NoResult                                                   // `undefined` or another falsy value

  /** The parts of the resolved build configuration the URL depends on. */
  datatype Config = Config(
    base: string,
    ssr: bool,
    renderBuiltUrl: Option<(string, UrlContext) -> HookResult>)

  /** The error thrown when the hook asks for a URL computed at run time. */
  datatype UrlError = RuntimeUnsupported(runtime: string, hostType: HostType, filename: string)

  /** The root-relative, normalised location of an HTML file, and its path as the host names it. */
  datatype HtmlFile = HtmlFile(path: string, fromRoot: seq<string>)

  /** `config.base === '' || config.base === './'`. */
  predicate IsRelativeBase(base: string) {
    base == "" || base == "./"
  }

  /** The hook's answer for one file, when a hook is configured. */
  function HookAnswer(filename: string, assetType: AssetType, hostId: string, hostType: HostType, config: Config): Option<HookResult> {
    match config.renderBuiltUrl
    case None => None
    case Some(hook) => Some(hook(filename, UrlContext(hostId, hostType, assetType, config.ssr)))
  }

  /** The hook returned an object with a truthy `runtime`. */
  predicate RequestsRuntime(h: Option<HookResult>) {
    h.Some? && h.value.Directive? && h.value.runtime.Some? && h.value.runtime.value != ""
  }

  /** The hook returned a non-empty string. */
  predicate GivesUrl(h: Option<HookResult>) {
    h.Some? && h.value.UrlString? && h.value.url != ""
  }

  /** Whether the URL is relative to the host file: the hook's boolean `relative` if any, else the base's default; never under SSR. */
  predicate UsesRelative(h: Option<HookResult>, config: Config) {
    var relative := if h.Some? && h.value.Directive? && h.value.relative.Some? then h.value.relative.value
                    else IsRelativeBase(config.base);
    relative && !config.ssr
  }

  /**
   * `toOutputFilePathInHtml`: throws for a runtime directive, uses a
   * non-empty hook string verbatim, and otherwise asks `toRelative` for a
   * relative URL or prefixes the file with the base.
   */
  function ToOutputFilePathInHtml(
    filename: string, assetType: AssetType, hostId: string, hostType: HostType,
    config: Config, toRelative: (string, string) -> string): (r: Result<string, UrlError>)
    ensures var h := HookAnswer(filename, assetType, hostId, hostType, config);
      && (r.Err? <==> RequestsRuntime(h))
      && (r.Err? ==> r.error == RuntimeUnsupported(h.value.runtime.value, hostType, filename))
      && (GivesUrl(h) ==> r == Ok(h.value.url))
      && (!RequestsRuntime(h) && !GivesUrl(h) && UsesRelative(h, config) ==> r == Ok(toRelative(filename, hostId)))
      && (!RequestsRuntime(h) && !GivesUrl(h) && !UsesRelative(h, config) ==> r == Ok(config.base + filename))
  {
    var relative := IsRelativeBase(config.base);
    var byBase := (relative: bool) =>
      if relative && !config.ssr then Ok(toRelative(filename, hostId)) else Ok(config.base + filename);
    match HookAnswer(filename, assetType, hostId, hostType, config)
    case Some(Directive(runtime, override)) =>
      if runtime.Some? && runtime.value != "" then Err(RuntimeUnsupported(runtime.value, hostType, filename))
      else byBase(if override.Some? then override.value else relative)
    case Some(UrlString(url)) => if url != "" then Ok(url) else byBase(relative)
    case _ => byBase(relative)
  }

  /** `s` repeated `k` times. */
  function Repeat(s: string, k: nat): string {
    if k == 0 then "" else s + Repeat(s, k - 1)
  }

  /** The prefix that leads from an HTML file `depth` segments below the root back to the root: `./` or one `../` per directory. */
  function RootPrefix(depth: nat): string {
    if depth <= 1 then "./" else Repeat("../", depth - 1)
  }

  /** `path.posix.relative(p, '')` for a normalised root-relative path `p` of `n` segments: `..` once per segment. */
  function UpToRoot(n: nat): string {
    if n == 0 then "" else if n == 1 then ".." else "../" + UpToRoot(n - 1)
  }

  /** `s.slice(0, -2)`. */
  function DropLastTwo(s: string): (r: string)
    ensures |s| >= 2 ==> s == r + s[|s| - 2..]
    ensures |s| < 2 ==> r == ""
  {
    if |s| < 2 then "" else s[..|s| - 2]
  }

  /** `path.posix.join(s, './')` for an `s` made of `../` segments: `./` when `s` is empty, else `s` with a trailing slash. */
  function JoinCurrentDir(s: string): string {
    if s == "" then "./" else if s[|s| - 1] == '/' then s else s + "/"
  }

  /** The `..`-path to the root is one `../` per directory, then `..`. */
  lemma {:induction false} UpToRootShape(n: nat)
    requires n >= 1
    ensures UpToRoot(n) == Repeat("../", n - 1) + ".."
  {
    if n > 1 {
      UpToRootShape(n - 1);
      assert Repeat("../", n - 1) == "../" + Repeat("../", n - 2);
    }
  }

  /** A non-empty repetition of `../` ends in `/`. */
  lemma {:induction false} RepeatEndsInSlash(k: nat)
    requires k >= 1
    ensures |Repeat("../", k)| >= 3 && Repeat("../", k)[|Repeat("../", k)| - 1] == '/'
  {
    if k > 1 {
      RepeatEndsInSlash(k - 1);
    }
  }

  /** Going up to the root, dropping the last `..` and joining `./` leaves `./` or one `../` per directory. */
  lemma RelativeBaseShape(n: nat)
    ensures JoinCurrentDir(DropLastTwo(UpToRoot(n))) == RootPrefix(n)
  {
    if n >= 1 {
      UpToRootShape(n);
      assert DropLastTwo(UpToRoot(n)) == Repeat("../", n - 1);
      if n >= 2 { RepeatEndsInSlash(n - 1); }
    }
  }

  /**
   * `getBaseInHTML`: with a relative base, the prefix back to the root from
   * the HTML file's directory; otherwise the configured base itself.
   */
  function GetBaseInHtml(fromRoot: seq<string>, config: Config): (r: string)
    ensures IsRelativeBase(config.base) ==> r == RootPrefix(|fromRoot|)
    ensures !IsRelativeBase(config.base) ==> r == config.base
  {
    if IsRelativeBase(config.base) then
      RelativeBaseShape(|fromRoot|);
      JoinCurrentDir(DropLastTwo(UpToRoot(|fromRoot|)))
    else config.base
  }

  /** The hook's answer for an asset referenced from an HTML file. */
  function HtmlHookAnswer(filename: string, html: HtmlFile, config: Config): Option<HookResult> {
    HookAnswer(filename, Asset, html.path, Html, config)
  }

  /**
   * `toAssetPathFromHtml`: the URL of an asset as written into an HTML file.
   * A relative URL is `./file` for a file at the root and `../`-prefixed one
   * level per directory below it; an absolute one is the base and the file.
   */
  function ToAssetPathFromHtml(filename: string, html: HtmlFile, config: Config): (r: Result<string, UrlError>)
    ensures var h := HtmlHookAnswer(filename, html, config);
      && (r.Err? <==> RequestsRuntime(h))
      && (r.Err? ==> r.error == RuntimeUnsupported(h.value.runtime.value, Html, filename))
      && (GivesUrl(h) ==> r == Ok(h.value.url))
      && (!RequestsRuntime(h) && !GivesUrl(h) && UsesRelative(h, config) && IsRelativeBase(config.base) ==>
            r == Ok(RootPrefix(|html.fromRoot|) + filename))
      && (!RequestsRuntime(h) && !GivesUrl(h) && !(UsesRelative(h, config) && IsRelativeBase(config.base)) ==>
            r == Ok(config.base + filename))
  {
    var base := GetBaseInHtml(html.fromRoot, config);
    ToOutputFilePathInHtml(filename, Asset, html.path, Html, config, (file, hostId) => base + file)
  }

  /** Without a hook and outside SSR, a relative base gives `./` or `../` prefixes and any other base is prepended as is. */
  lemma DefaultAssetPath(filename: string, html: HtmlFile, config: Config)
    requires config.renderBuiltUrl.None?
    ensures IsRelativeBase(config.base) && !config.ssr ==>
      ToAssetPathFromHtml(filename, html, config) == Ok(RootPrefix(|html.fromRoot|) + filename)
    ensures !IsRelativeBase(config.base) || config.ssr ==>
      ToAssetPathFromHtml(filename, html, config) == Ok(config.base + filename)
  {
  }

  /**
   * For a URL written into HTML, a hook answering `{ relative: true }` changes
   * nothing: with a relative base the default is already relative, and with
   * any other base `getBaseInHTML` hands back the base itself.
   */
  lemma RelativeOverrideNoEffect(filename: string, html: HtmlFile, base: string, ssr: bool)
    ensures ToAssetPathFromHtml(filename, html, Config(base, ssr, Some((_, _) => Directive(None, Some(true))))) ==
      ToAssetPathFromHtml(filename, html, Config(base, ssr, None))
  {
  }

  /** A hook answering `{ relative: false }` always gets the base followed by the file. */
  lemma AbsoluteOverride(filename: string, html: HtmlFile, base: string, ssr: bool)
    ensures ToAssetPathFromHtml(filename, html, Config(base, ssr, Some((_, _) => Directive(None, Some(false))))) ==
      Ok(base + filename)
  {
  }

  /** An HTML file at `nested/index.html` with base `./` refers to `assets/a.js` as `../assets/a.js`. */
  lemma ExampleNestedRelative(html: HtmlFile)
    requires html.fromRoot == ["nested", "index.html"]
    ensures ToAssetPathFromHtml("assets/a.js", html, Config("./", false, None)) == Ok("../assets/a.js")
  {
    assert Repeat("../", 1) == "../";
    assert RootPrefix(|html.fromRoot|) + "assets/a.js" == "../assets/a.js";
  }
}
