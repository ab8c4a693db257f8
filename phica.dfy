/**
 * The Phica forum downloader: for a thread it saves every attachment and lightbox image into
 * `img` or `videos` below a folder named after the thread, follows the "next page" links, and
 * collects the links to other hosts it finds. Once the thread is done, each distinct Gofile link
 * goes to a Gofile downloader and each Bunkr link, rewritten to a current Bunkr domain, to the
 * Bunkr post downloader.
 *
 * The object is the class `Phica`; `PhicaState` is a snapshot of it, and the functions on
 * snapshots specify what its methods do.
 */
module Phica {
  import opened Wrappers
  import opened Text
  import opened Urls
  import opened Translation
  import opened Net
  import Naming
  import Gofile

  // ---------------------------------------------------------------------------------------------
  // Names

  /** The Bunkr domains no longer served. */
  const LegacyBunkrDomains: seq<string> :=
    ["bunkr.ax", "bunkr.cat", "bunkr.ru", "bunkrr.ru", "bunkr.su", "bunkrr.su", "bunkr.la", "bunkr.is", "bunkr.to"]

  /** The current Bunkr domains; links are rewritten to the first one. */
  const NewBunkrDomains: seq<string> :=
    ["bunkr.ac", "bunkr.ci", "bunkr.cr", "bunkr.fi", "bunkr.ph", "bunkr.pk", "bunkr.ps", "bunkr.si",
     "bunkr.sk", "bunkr.ws", "bunkr.black", "bunkr.red", "bunkr.media", "bunkr.site"]

  /** Whether the host of a URL, lower-cased, is a legacy Bunkr domain. */
  predicate IsLegacy(url: string) {
    Lower(UrlSplit(url).netloc) in LegacyBunkrDomains
  }

  /**
   * `convert_legacy_bunkr_link(url)` without its log line: `urlparse(url)._replace(netloc=...).geturl()`
   * with the host `bunkr.ac` when legacy, the URL itself otherwise.
   */
  function ConvertLegacyBunkrLink(url: string): string {
    if IsLegacy(url) then UrlUnparse(UrlParse(url).(netloc := NewBunkrDomains[0]), UrlParams(url)) else url
  }

  lemma {:induction false} NewDomainIsPlainHost()
    ensures NewBunkrDomains[0] == "bunkr.ac"
    ensures forall j :: 0 <= j < |NewBunkrDomains[0]| ==> !IsNetlocDelimiter(NewBunkrDomains[0][j])
    ensures Lower(NewBunkrDomains[0]) == NewBunkrDomains[0] && NewBunkrDomains[0] !in LegacyBunkrDomains
  {
    NewDomainIsLower();
    NewDomainIsNotLegacy();
  }

  lemma {:induction false} NewDomainIsLower()
    ensures Lower("bunkr.ac") == "bunkr.ac"
  {
    var d := "bunkr.ac";
    assert forall j :: 0 <= j < |d| ==> !IsAsciiUpper(d[j]);
  }

  /** No legacy domain ends in 'c', as `bunkr.ac` does. */
  lemma {:induction false} NewDomainIsNotLegacy()
    ensures "bunkr.ac" !in LegacyBunkrDomains
  {
    assert forall k :: 0 <= k < |LegacyBunkrDomains| ==> LegacyBunkrDomains[k][|LegacyBunkrDomains[k]| - 1] != 'c';
  }

  /**
   * A legacy link keeps its scheme, path, parameters, query and fragment and gets the host
   * `bunkr.ac`; any other link is returned as it is.
   */
  lemma {:induction false} ConvertLegacyBunkrLinkParts(url: string)
    ensures IsLegacy(url) ==> UrlParse(ConvertLegacyBunkrLink(url)) == UrlParse(url).(netloc := "bunkr.ac")
                              && UrlParams(ConvertLegacyBunkrLink(url)) == UrlParams(url)
                              && UrlSplit(ConvertLegacyBunkrLink(url)).netloc == "bunkr.ac"
    ensures !IsLegacy(url) ==> ConvertLegacyBunkrLink(url) == url
  {
    if IsLegacy(url) {
      NewDomainIsPlainHost();
      assert UrlSplit(url).netloc != "";
      ReparseReplaced(url, NewBunkrDomains[0]);
    }
  }

  /** Converting a converted link changes nothing: `bunkr.ac` is not a legacy domain. */
  lemma {:induction false} ConvertLegacyBunkrLinkIdempotent(url: string)
    ensures ConvertLegacyBunkrLink(ConvertLegacyBunkrLink(url)) == ConvertLegacyBunkrLink(url)
  {
    ConvertLegacyBunkrLinkParts(url);
    NewDomainIsPlainHost();
  }

  /** The characters `sanitize_folder_name` replaces: `<>:"/\|?*`. */
  const FolderForbidden: set<char> := {'<', '>', ':', '"', '/', '\\', '|', '?', '*'}

  /** `sanitize_folder_name(name)`: each forbidden character becomes '_', every other one stays. */
  function SanitizeFolderName(name: string): (r: string)
    ensures |r| == |name|
    ensures forall i :: 0 <= i < |r| ==> r[i] !in FolderForbidden
    ensures forall i :: 0 <= i < |name| ==> r[i] == (if name[i] in FolderForbidden then '_' else name[i])
  {
    ReplaceEach(name, FolderForbidden, '_')
  }

  lemma {:induction false} SanitizeFolderNameIdempotent(name: string)
    ensures SanitizeFolderName(SanitizeFolderName(name)) == SanitizeFolderName(name)
  {
    ReplaceEachIdempotent(name, FolderForbidden, '_');
  }

  /** Where the run of letters and digits at the end of `s` starts. */
  function AlnumSuffixStart(s: string): (k: nat)
    ensures k <= |s|
    ensures forall j :: k <= j < |s| ==> IsAsciiAlnum(s[j])
    ensures k > 0 ==> !IsAsciiAlnum(s[k - 1])
  {
    if s == [] || !IsAsciiAlnum(s[|s| - 1]) then |s| else AlnumSuffixStart(s[..|s| - 1])
  }

  /** The match of `\.([a-zA-Z0-9]+)$` in a path: letters and digits after a final '.'. */
  function ExtensionOf(path: string): (r: Option<string>)
    ensures r.Some? ==> r.value != [] && (forall j :: 0 <= j < |r.value| ==> IsAsciiAlnum(r.value[j]))
                        && EndsWith(path, "." + r.value)
    ensures r.None? ==> forall k :: 0 <= k < |path| - 1 && path[k] == '.' ==>
                          exists j :: k < j < |path| && !IsAsciiAlnum(path[j])
  {
    var k := AlnumSuffixStart(path);
    if 0 < k < |path| && path[k - 1] == '.' then
      assert path[k - 1..] == "." + path[k..];
      Some(path[k..])
    else
      assert forall m :: 0 <= m < |path| - 1 && path[m] == '.' ==> m + 1 < k && !IsAsciiAlnum(path[k - 1]);
      None
  }

  /** `get_file_extension(url)`: the lower-cased extension of the URL's path, or "jpg" without one. */
  function GetFileExtension(url: string): (r: string)
    ensures r != [] && forall j :: 0 <= j < |r| ==> IsAsciiLower(r[j]) || IsDigitChar(r[j])
  {
    PathExtension(UrlParse(url).path)
  }

  /** The lower-cased extension of a path, or "jpg" without one. */
  function PathExtension(path: string): (r: string)
    ensures r != [] && forall j :: 0 <= j < |r| ==> IsAsciiLower(r[j]) || IsDigitChar(r[j])
  {
    match ExtensionOf(path)
    case Some(e) => Lower(e)
    case None => "jpg"
  }

  /** A path `stem.ext` has the extension `ext`, whatever the stem. */
  lemma {:induction false} ExtensionOfDotted(stem: string, ext: string)
    requires ext != [] && forall j :: 0 <= j < |ext| ==> IsAsciiAlnum(ext[j])
    ensures ExtensionOf(stem + "." + ext) == Some(ext)
  {
    var p := stem + "." + ext;
    var k := AlnumSuffixStart(p);
    assert p[|stem|] == '.';
    assert forall j :: |stem| < j < |p| ==> p[j] == ext[j - |stem| - 1];
    assert k == |stem| + 1;
    assert p[k..] == ext;
  }

  /** Parameters after a ';' in the last path segment do not hide the extension before them. */
  lemma {:induction false} GetFileExtensionIgnoresParams(url: string, stem: string, ext: string, params: string)
    requires UrlSplit(url).scheme in UsesParams
    requires UrlSplit(url).path == stem + "." + ext + ";" + params
    requires NoParams(stem + "." + ext) && NoSlash(params)
    requires ext != [] && forall j :: 0 <= j < |ext| ==> IsAsciiAlnum(ext[j])
    ensures GetFileExtension(url) == Lower(ext)
  {
    UrlParseCutsParams(url, stem + "." + ext, params);
    ExtensionOfDotted(stem, ext);
  }

  /** `generate_unique_file_name(url)`: the hexadecimal MD5 digest of the URL, a dot and its extension. */
  function UniqueFileName(md5: string -> Naming.HexDigest, url: string): (r: string)
    ensures |r| == 33 + |GetFileExtension(url)|
    ensures r[..32] == md5(url) && r[32] == '.' && r[33..] == GetFileExtension(url)
  {
    md5(url) + "." + GetFileExtension(url)
  }

  /** Two URLs get the same file name exactly when their digests and their extensions agree. */
  lemma {:induction false} UniqueFileNameEquality(md5: string -> Naming.HexDigest, url1: string, url2: string)
    ensures UniqueFileName(md5, url1) == UniqueFileName(md5, url2)
            <==> md5(url1) == md5(url2) && GetFileExtension(url1) == GetFileExtension(url2)
  {
    var a := UniqueFileName(md5, url1);
    var b := UniqueFileName(md5, url2);
    if a == b {
      assert a[..32] == b[..32];
      assert a[33..] == b[33..];
    }
  }

  const ImageExtensions: seq<string> := ["jpg", "jpeg", "png", "gif", "webp"]
  const VideoExtensions: seq<string> := ["mp4", "webm", "mov", "avi"]

  /** The folder `download_file` picks for an extension. */
  function FolderFor(ext: string, imgFolder: string, videoFolder: string): string {
    if ext in ImageExtensions then imgFolder
    else if ext in VideoExtensions then videoFolder
    else imgFolder
  }

  /** Only the video extensions go to the video folder; everything else, known or not, goes to the image folder. */
  lemma {:induction false} FolderForIsVideoTest(ext: string, imgFolder: string, videoFolder: string)
    ensures FolderFor(ext, imgFolder, videoFolder) == (if ext in VideoExtensions then videoFolder else imgFolder)
  {
    if ext in ImageExtensions {
      assert ext !in VideoExtensions;
    }
  }

  /** Where `download_file` saves a URL. */
  function SavePath(md5: string -> Naming.HexDigest, url: string, imgFolder: string, videoFolder: string): string {
    PathJoin(FolderFor(GetFileExtension(url), imgFolder, videoFolder), UniqueFileName(md5, url))
  }

  // ---------------------------------------------------------------------------------------------
  // Pages, the outside world and the state

  // The fixed messages of the downloader.
  const CancelledByUserText: string := "Descarga cancelada por el usuario."
  const GofileStartText: string := "Starting download of Gofile files..."
  const GofileDoneText: string := "Gofile files download completed."
  const ExternalStartText: string := "Starting download of external files..."
  const ExternalDoneText: string := "External files download completed."
  const NoTitleText: string := "Thread title not found."
  const ThreadDoneText: string := "Descarga completada."

  /** The messages Phica passes to the window, before translation. */
  datatype Message =
    | Note(text: string)
    | Processing(url: string)
    | Converted(from: string, to: string)
    | FoundExternal(link: string)
    | FoundAttachment(url: string)
    | FoundLightbox(url: string)
    | AlreadyExists(name: string)
    | Saved(path: string)
    | DownloadError(status: nat, reason: string, url: string)
    | FoundNextPage(url: string)
    | PageError(status: nat, reason: string, url: string)

  function MessageText(m: Message): string {
    match m
    case Note(text) => text
    case Processing(url) => "Procesando hilo: " + url
    case Converted(from, to) => "Converted legacy Bunkr link: " + from + " -> " + to
    case FoundExternal(link) => "Found external link: " + link
    case FoundAttachment(url) => "Found file URL (a tag): " + url
    case FoundLightbox(url) => "Found file URL (lightbox link): " + url
    case AlreadyExists(name) => "File already exists, skipping: " + name
    case Saved(path) => "File downloaded successfully: " + path
    case DownloadError(status, reason, url) => "Error downloading the file: " + HttpErrorMessage(status, reason, url)
    case FoundNextPage(url) => "Found next page: " + url
    case PageError(status, reason, url) => "Error fetching the page: " + HttpErrorMessage(status, reason, url)
  }

  /**
   * What a thread page yields: the title text if the title element is there, the `href` of
   * every link, of every attachment and of every lightbox link (absent when the attribute is),
   * and the `href` of the next-page link if there is one; or the error status of the request.
   */
  datatype PageAnswer =
    | Page(title: Option<string>, hrefs: seq<string>, attachments: seq<string>,
           lightbox: seq<Option<string>>, next: Option<string>)
    | PageFailed(status: nat, reason: string)

  /**
   * The outside world: MD5, `urljoin`, the answer to each file URL, SHA-256, `sanitize_filename`,
   * what the Gofile site answers for each Gofile link, whether the user presses Cancel while a
   * Gofile link is being downloaded, and the order in which a Python set of strings is iterated
   * (`pick(S)` comes first).
   */
  datatype Env = Env(
    md5: string -> Naming.HexDigest,
    urljoin: (string, string) -> string,
    files: string -> Response,
    sha256: string -> string,
    sanitize: string -> string,
    gofileApi: string -> Gofile.Api,
    gofileCancel: string -> bool,
    pick: set<string> -> string)

  ghost predicate PicksMember(pick: set<string> -> string) {
    forall s: set<string> :: s != {} ==> pick(s) in s
  }

  /** The pages of a thread in the order they are fetched, the last one without a next-page link. */
  predicate Complete(pages: seq<PageAnswer>) {
    pages != [] && (pages[|pages| - 1].Page? ==> pages[|pages| - 1].next.None?)
  }

  datatype PhicaState = PhicaState(
    baseUrl: string,
    cancelRequested: bool,
    log: seq<Message>,
    externalLinks: seq<string>,
    descargadas: set<string>,
    fs: set<string>,
    requested: seq<string>,
    gofileLinks: seq<string>,
    bunkrPosts: seq<string>)

  function Logged(s: PhicaState, m: Message): PhicaState {
    s.(log := s.log + [m])
  }

  /** `request_cancel()`. */
  function CancelRequested(s: PhicaState): PhicaState {
    Logged(s.(cancelRequested := true), Note(CancelledByUserText))
  }

  /** `convert_legacy_bunkr_link(url)` with its log line: the new state and the link. */
  function Conversion(s: PhicaState, url: string): (PhicaState, string) {
    (s.(log := s.log + ConversionLog(url)), ConvertLegacyBunkrLink(url))
  }

  /** The line `convert_legacy_bunkr_link` logs: one for a legacy link, none otherwise. */
  function ConversionLog(url: string): seq<Message> {
    if IsLegacy(url) then [Converted(url, ConvertLegacyBunkrLink(url))] else []
  }

  /** The test of `download_files_from_page` for a link to another host. */
  predicate IsExternal(href: string) {
    ContainsAny(href, ["bunkr", "bunkrr", "gofile", "pixeldrain"])
  }

  /** The links of `hrefs` to other hosts, in order. */
  function Externals(hrefs: seq<string>): (r: seq<string>)
    ensures |r| <= |hrefs|
  {
    if hrefs == [] then []
    else (if IsExternal(hrefs[0]) then [hrefs[0]] else []) + Externals(hrefs[1..])
  }

  lemma {:induction false} ConvertAllCons(x: string, xs: seq<string>)
    ensures ConvertAll([x] + xs) == [ConvertLegacyBunkrLink(x)] + ConvertAll(xs)
  {
    assert ([x] + xs)[1..] == xs;
  }

  /** The links rewritten one by one by `convert_legacy_bunkr_link`. */
  function ConvertAll(links: seq<string>): (r: seq<string>)
    ensures |r| == |links|
  {
    if links == [] then [] else [ConvertLegacyBunkrLink(links[0])] + ConvertAll(links[1..])
  }

  /** The first loop of `download_files_from_page`: external links, converted, are collected. */
  function CollectConverted(s: PhicaState, hrefs: seq<string>): PhicaState
    decreases |hrefs|
  {
    if hrefs == [] then s
    else if IsExternal(hrefs[0]) then CollectConverted(CollectOne(s, hrefs[0]), hrefs[1..])
    else CollectConverted(s, hrefs[1..])
  }

  /** One external link of the first loop: converted (which may log), appended, and logged. */
  function CollectOne(s: PhicaState, href: string): PhicaState {
    var c := ConvertLegacyBunkrLink(href);
    s.(log := s.log + ConversionLog(href) + [FoundExternal(c)], externalLinks := s.externalLinks + [c])
  }

  /** The last loop of `download_files_from_page`: the same links are collected again, unconverted. */
  function CollectRaw(s: PhicaState, hrefs: seq<string>): PhicaState
    decreases |hrefs|
  {
    if hrefs == [] then s
    else if IsExternal(hrefs[0]) then
      CollectRaw(Logged(s.(externalLinks := s.externalLinks + [hrefs[0]]), FoundExternal(hrefs[0])), hrefs[1..])
    else CollectRaw(s, hrefs[1..])
  }

  /**
   * The chunk loop of `download_file`: a `Cancel` is the window calling `request_cancel()`, and
   * a chunk found with the flag set ends the loop.
   */
  function Chunks(s: PhicaState, body: seq<Event>): PhicaState
    decreases |body|
  {
    if body == [] then s
    else match body[0]
      case Cancel => Chunks(CancelRequested(s), body[1..])
      case Data(_) => if s.cancelRequested then s else Chunks(s, body[1..])
  }

  /** `download_file(url, img, videos)`. */
  function FileDownload(s: PhicaState, env: Env, url: string, imgFolder: string, videoFolder: string): PhicaState {
    if s.cancelRequested then s
    else
      var name := UniqueFileName(env.md5, url);
      var path := SavePath(env.md5, url, imgFolder, videoFolder);
      if path in s.fs then Logged(s, AlreadyExists(name))
      else
        var resp := env.files(url);
        var s1 := s.(requested := s.requested + [url]);
        if IsHttpError(resp.status) then Logged(s1, DownloadError(resp.status as nat, resp.reason, url))
        else
          var s2 := Chunks(s1.(fs := s1.fs + {path}), resp.body);
          if s2.cancelRequested then s2
          else Logged(s2, Saved(path)).(descargadas := s2.descargadas + {name})
  }

  /** The attachment loop of `download_files_from_page`. */
  function Attachments(s: PhicaState, env: Env, rels: seq<string>, imgFolder: string, videoFolder: string): PhicaState
    decreases |rels|
  {
    if rels == [] || s.cancelRequested then s
    else
      var full := env.urljoin(s.baseUrl, rels[0]);
      Attachments(FileDownload(Logged(s, FoundAttachment(full)), env, full, imgFolder, videoFolder), env, rels[1..], imgFolder, videoFolder)
  }

  /** The lightbox loop of `download_files_from_page`; a link without a (non-empty) `href` is passed over. */
  function Lightbox(s: PhicaState, env: Env, links: seq<Option<string>>, imgFolder: string, videoFolder: string): PhicaState
    decreases |links|
  {
    if links == [] || s.cancelRequested then s
    else if links[0].None? || links[0].value == "" then Lightbox(s, env, links[1..], imgFolder, videoFolder)
    else
      var full := env.urljoin(s.baseUrl, links[0].value);
      Lightbox(FileDownload(Logged(s, FoundLightbox(full)), env, full, imgFolder, videoFolder), env, links[1..], imgFolder, videoFolder)
  }

  /** `download_files_from_page(page, img, videos)`. */
  function VisitPage(s: PhicaState, env: Env, page: PageAnswer, imgFolder: string, videoFolder: string): PhicaState
    requires page.Page?
  {
    var s1 := CollectConverted(s, page.hrefs);
    var s2 := Attachments(s1, env, page.attachments, imgFolder, videoFolder);
    var s3 := Lightbox(s2, env, page.lightbox, imgFolder, videoFolder);
    CollectRaw(s3, page.hrefs)
  }

  /** `extract_next_page_url(page)`. */
  function NextPageUrl(s: PhicaState, env: Env, page: PageAnswer): Option<string>
    requires page.Page?
  {
    if page.next.Some? then Some(env.urljoin(s.baseUrl, page.next.value)) else None
  }

  /**
   * The pagination loop of `download_files` after page `k`: the next page is fetched and visited
   * while there is one and no cancel; false when a fetch failed (the method then returns).
   */
  function Paginate(s: PhicaState, env: Env, pages: seq<PageAnswer>, k: nat, imgFolder: string, videoFolder: string): (PhicaState, bool)
    requires Complete(pages) && k < |pages| && pages[k].Page?
    decreases |pages| - k
  {
    var next := NextPageUrl(s, env, pages[k]);
    if next.None? || next.value == "" || s.cancelRequested then (s, true)
    else
      var s1 := Logged(s, FoundNextPage(next.value)).(requested := s.requested + [next.value]);
      match pages[k + 1]
      case PageFailed(status, reason) => (Logged(s1, PageError(status, reason, next.value)), false)
      case Page(_, _, _, _, _) => Paginate(VisitPage(s1, env, pages[k + 1], imgFolder, videoFolder), env, pages, k + 1, imgFolder, videoFolder)
  }

  /** The Gofile links among `links`, as the set the source builds. */
  function GofileSet(links: seq<string>): set<string> {
    set l | l in links && Contains(l, "gofile")
  }

  /** The order in which the loop visits a set of links. */
  function Enumerate(links: set<string>, pick: set<string> -> string): (r: seq<string>)
    requires PicksMember(pick)
    ensures |r| == |links|
    ensures forall x :: x in r <==> x in links
    ensures forall i, j :: 0 <= i < j < |r| ==> r[i] != r[j]
    decreases |links|
  {
    if links == {} then []
    else
      var x := pick(links);
      var rest := Enumerate(links - {x}, pick);
      assert x !in rest;
      [x] + rest
  }

  /**
   * One Gofile link as the Gofile downloader handles it. Cancel reaches only the Phica object,
   * so the downloader sees file bodies without a cancel.
   */
  function GofileDownload(g: Gofile.GofileState, env: Env, link: string, folder: string): Gofile.GofileState {
    Gofile.Descargar(g, link, None, env.sha256, env.sanitize, folder, Gofile.MutedApi(env.gofileApi(link)))
  }

  /** Phica's state after one Gofile link: the link recorded, and the cancel if the user pressed it meanwhile. */
  function AfterGofileLink(s: PhicaState, env: Env, link: string): PhicaState {
    var s1 := s.(gofileLinks := s.gofileLinks + [link]);
    if env.gofileCancel(link) then CancelRequested(s1) else s1
  }

  /** The Gofile loop of `download_gofile_files`, `g` being the Gofile downloader's state. */
  function GofileLoop(s: PhicaState, g: Gofile.GofileState, env: Env, links: seq<string>, folder: string): (PhicaState, Gofile.GofileState)
    decreases |links|
  {
    if links == [] || s.cancelRequested then (s, g)
    else GofileLoop(AfterGofileLink(s, env, links[0]), GofileDownload(g, env, links[0], folder), env, links[1..], folder)
  }

  /** The links up to and including the first one during which the user cancels; all of them without a cancel. */
  function UpToCancel(links: seq<string>, cancelled: string -> bool): (r: seq<string>)
    ensures |r| <= |links| && r == links[..|r|]
    ensures forall i :: 0 <= i < |r| - 1 ==> !cancelled(r[i])
    ensures |r| < |links| ==> r != [] && cancelled(r[|r| - 1])
    decreases |links|
  {
    if links == [] then []
    else if cancelled(links[0]) then [links[0]]
    else [links[0]] + UpToCancel(links[1..], cancelled)
  }

  lemma {:induction false} EnumerateStep(links: set<string>, pick: set<string> -> string)
    requires PicksMember(pick) && links != {}
    ensures Enumerate(links, pick) == [pick(links)] + Enumerate(links - {pick(links)}, pick)
  {
  }

  /** The Gofile loop over a set of links takes the picked link first. */
  lemma {:induction false} GofileLoopPick(s: PhicaState, g: Gofile.GofileState, env: Env, links: set<string>, folder: string)
    requires PicksMember(env.pick) && links != {} && !s.cancelRequested
    ensures var link := env.pick(links);
            GofileLoop(s, g, env, Enumerate(links, env.pick), folder)
            == GofileLoop(AfterGofileLink(s, env, link), GofileDownload(g, env, link, folder),
                          env, Enumerate(links - {link}, env.pick), folder)
  {
    var order := Enumerate(links, env.pick);
    EnumerateStep(links, env.pick);
    assert order[0] == env.pick(links) && order[1..] == Enumerate(links - {env.pick(links)}, env.pick);
    GofileLoopStep(s, g, env, order, folder);
  }

  lemma {:induction false} GofileLoopStep(s: PhicaState, g: Gofile.GofileState, env: Env, links: seq<string>, folder: string)
    requires links != [] && !s.cancelRequested
    ensures GofileLoop(s, g, env, links, folder)
            == GofileLoop(AfterGofileLink(s, env, links[0]), GofileDownload(g, env, links[0], folder),
                          env, links[1..], folder)
  {
  }

  /** A fresh Gofile downloader working on the same disk. */
  function FreshGofile(fs: set<string>): Gofile.GofileState {
    Gofile.GofileState(false, None, None, [], fs, [], [])
  }

  /** `download_gofile_files(folder)`. */
  function GofileFiles(s: PhicaState, env: Env, folder: string): PhicaState
    requires PicksMember(env.pick)
  {
    if s.externalLinks == [] then s
    else
      var s1 := Logged(s, Note(GofileStartText));
      var (s2, g) := GofileLoop(s1, FreshGofile(s1.fs), env, Enumerate(GofileSet(s1.externalLinks), env.pick), folder);
      Logged(s2.(fs := g.fs), Note(GofileDoneText))
  }

  /** One Bunkr link of the Bunkr loop: converted (which may log) and handed to the Bunkr downloader. */
  function DispatchOne(s: PhicaState, link: string): PhicaState {
    s.(log := s.log + ConversionLog(link), bunkrPosts := s.bunkrPosts + [ConvertLegacyBunkrLink(link)])
  }

  /** The Bunkr loop of `download_external_files` as written: it runs on after a cancel. */
  function BunkrDispatchAsWritten(s: PhicaState, links: seq<string>): PhicaState
    decreases |links|
  {
    if links == [] then s
    else if Contains(links[0], "bunkr") then
      BunkrDispatchAsWritten(DispatchOne(s, links[0]), links[1..])
    else BunkrDispatchAsWritten(s, links[1..])
  }

  /** The Bunkr loop stopping on the cancel flag, as the Gofile loop beside it does. */
  function BunkrDispatch(s: PhicaState, links: seq<string>): PhicaState
    decreases |links|
  {
    if links == [] || s.cancelRequested then s
    else if Contains(links[0], "bunkr") then
      BunkrDispatch(DispatchOne(s, links[0]), links[1..])
    else BunkrDispatch(s, links[1..])
  }

  /** `download_external_files(folder)`, with the Bunkr loop as written when `asWritten`, else the corrected one. */
  function ExternalFilesWith(s: PhicaState, env: Env, folder: string, asWritten: bool): PhicaState
    requires PicksMember(env.pick)
  {
    if s.externalLinks == [] then s
    else
      var s1 := GofileFiles(Logged(s, Note(ExternalStartText)), env, folder);
      var s2 := if asWritten then BunkrDispatchAsWritten(s1, s1.externalLinks) else BunkrDispatch(s1, s1.externalLinks);
      Logged(s2, Note(ExternalDoneText))
  }

  /** The title `extract_thread_title` gives: the stripped text, "" standing for none. */
  function ThreadTitle(page: PageAnswer): string
    requires page.Page?
  {
    match page.title case None => "" case Some(t) => Strip(t)
  }

  /**
   * `download_files(link)` over the pages of the thread, its external pass with the Bunkr loop
   * as written when `asWritten`, else with the corrected one.
   */
  function DownloadFilesSpec(s: PhicaState, env: Env, link: string, pages: seq<PageAnswer>, downloadFolder: string, asWritten: bool): PhicaState
    requires Complete(pages) && PicksMember(env.pick)
  {
    var s0 := s.(cancelRequested := false, requested := s.requested + [link]);
    match pages[0]
    case PageFailed(status, reason) => Logged(s0, PageError(status, reason, link))
    case Page(_, _, _, _, _) =>
      var title := ThreadTitle(pages[0]);
      if title == "" then Logged(s0, Note(NoTitleText))
      else
        var threadFolder := PathJoin(downloadFolder, SanitizeFolderName(title));
        var img := PathJoin(threadFolder, "img");
        var videos := PathJoin(threadFolder, "videos");
        var (s2, ok) := Paginate(VisitPage(s0, env, pages[0], img, videos), env, pages, 0, img, videos);
        if ok then ExternalFilesWith(s2, env, threadFolder, asWritten) else s2
  }

  // ---------------------------------------------------------------------------------------------
  // Properties

  /**
   * The chunk loop ends with the flag set exactly when it was set before or the user pressed
   * Cancel during the stream; it changes only the flag and the log, to which it adds only the
   * cancel note, at least once when a cancel arrives with the flag clear.
   */
  lemma {:induction false} ChunksCancelSeen(s: PhicaState, body: seq<Event>)
    ensures var r := Chunks(s, body);
      && r.cancelRequested == (s.cancelRequested || HasCancel(body))
      && r == s.(cancelRequested := r.cancelRequested, log := r.log)
      && |s.log| <= |r.log| && r.log[..|s.log|] == s.log
      && (forall i :: |s.log| <= i < |r.log| ==> r.log[i] == Note(CancelledByUserText))
      && (!s.cancelRequested && HasCancel(body) ==> |r.log| > |s.log|)
    decreases |body|
  {
    if body != [] {
      assert forall i :: 1 <= i < |body| ==> body[1..][i - 1] == body[i];
      match body[0]
      case Cancel =>
        var s1 := CancelRequested(s);
        ChunksCancelSeen(s1, body[1..]);
        var r := Chunks(s1, body[1..]);
        assert r.log[..|s1.log|] == s1.log;
        assert r.log[..|s.log|] == s1.log[..|s.log|];
      case Data(_) =>
        if !s.cancelRequested {
          ChunksCancelSeen(s, body[1..]);
          assert HasCancel(body) == HasCancel(body[1..]);
        }
    }
  }

  /**
   * `download_file` with the flag set does nothing; a file already there is only reported;
   * otherwise the URL is requested once and, unless the request fails, the file is (at least
   * partly) on disk, and its name is recorded exactly when no cancel came during the stream.
   */
  lemma {:induction false} FileDownloadFacts(s: PhicaState, env: Env, url: string, imgFolder: string, videoFolder: string)
    ensures var r := FileDownload(s, env, url, imgFolder, videoFolder);
      var path := SavePath(env.md5, url, imgFolder, videoFolder);
      var resp := env.files(url);
      && (s.cancelRequested ==> r == s)
      && (!s.cancelRequested && path in s.fs ==> r.requested == s.requested && r.fs == s.fs && r.descargadas == s.descargadas)
      && (!s.cancelRequested && path !in s.fs ==> r.requested == s.requested + [url])
      && (!s.cancelRequested && path !in s.fs && !IsHttpError(resp.status) ==>
            && r.fs == s.fs + {path}
            && r.cancelRequested == HasCancel(resp.body)
            && r.descargadas == (if HasCancel(resp.body) then s.descargadas else s.descargadas + {UniqueFileName(env.md5, url)}))
      && r.externalLinks == s.externalLinks && r.baseUrl == s.baseUrl
      && r.gofileLinks == s.gofileLinks && r.bunkrPosts == s.bunkrPosts
  {
    var path := SavePath(env.md5, url, imgFolder, videoFolder);
    if !s.cancelRequested && path !in s.fs && !IsHttpError(env.files(url).status) {
      ChunksCancelSeen(s.(requested := s.requested + [url], fs := s.fs + {path}), env.files(url).body);
    }
  }

  lemma {:induction false} AppendAssoc(a: seq<string>, b: seq<string>, c: seq<string>)
    ensures (a + b) + c == a + (b + c)
  {
  }

  /** The first loop appends the converted external links, the last one the external links as found. */
  lemma {:induction false} CollectConvertedLinks(s: PhicaState, hrefs: seq<string>)
    ensures var r := CollectConverted(s, hrefs);
      r.externalLinks == s.externalLinks + ConvertAll(Externals(hrefs))
      && r.baseUrl == s.baseUrl && r.cancelRequested == s.cancelRequested && r.fs == s.fs
    decreases |hrefs|
  {
    if hrefs != [] {
      if IsExternal(hrefs[0]) {
        var c := ConvertLegacyBunkrLink(hrefs[0]);
        var s2 := CollectOne(s, hrefs[0]);
        CollectConvertedLinks(s2, hrefs[1..]);
        var rest := Externals(hrefs[1..]);
        assert Externals(hrefs) == [hrefs[0]] + rest;
        ConvertAllCons(hrefs[0], rest);
        AppendAssoc(s.externalLinks, [c], ConvertAll(rest));
      } else {
        assert Externals(hrefs) == Externals(hrefs[1..]);
        CollectConvertedLinks(s, hrefs[1..]);
      }
    }
  }

  lemma {:induction false} CollectRawLinks(s: PhicaState, hrefs: seq<string>)
    ensures var r := CollectRaw(s, hrefs);
      r.externalLinks == s.externalLinks + Externals(hrefs)
      && r.cancelRequested == s.cancelRequested
    decreases |hrefs|
  {
    if hrefs != [] {
      if IsExternal(hrefs[0]) {
        var s1 := Logged(s.(externalLinks := s.externalLinks + [hrefs[0]]), FoundExternal(hrefs[0]));
        CollectRawLinks(s1, hrefs[1..]);
        assert Externals(hrefs) == [hrefs[0]] + Externals(hrefs[1..]);
        AppendAssoc(s.externalLinks, [hrefs[0]], Externals(hrefs[1..]));
      } else {
        CollectRawLinks(s, hrefs[1..]);
      }
    }
  }

  lemma {:induction false} AttachmentsKeepLinks(s: PhicaState, env: Env, rels: seq<string>, imgFolder: string, videoFolder: string)
    ensures var r := Attachments(s, env, rels, imgFolder, videoFolder);
      r.externalLinks == s.externalLinks && r.baseUrl == s.baseUrl
    decreases |rels|
  {
    if rels != [] && !s.cancelRequested {
      var full := env.urljoin(s.baseUrl, rels[0]);
      FileDownloadFacts(Logged(s, FoundAttachment(full)), env, full, imgFolder, videoFolder);
      AttachmentsKeepLinks(FileDownload(Logged(s, FoundAttachment(full)), env, full, imgFolder, videoFolder), env, rels[1..], imgFolder, videoFolder);
    }
  }

  lemma {:induction false} LightboxKeepsLinks(s: PhicaState, env: Env, links: seq<Option<string>>, imgFolder: string, videoFolder: string)
    ensures Lightbox(s, env, links, imgFolder, videoFolder).externalLinks == s.externalLinks
    decreases |links|
  {
    if links != [] && !s.cancelRequested {
      if links[0].None? || links[0].value == "" {
        LightboxKeepsLinks(s, env, links[1..], imgFolder, videoFolder);
      } else {
        var full := env.urljoin(s.baseUrl, links[0].value);
        FileDownloadFacts(Logged(s, FoundLightbox(full)), env, full, imgFolder, videoFolder);
        LightboxKeepsLinks(FileDownload(Logged(s, FoundLightbox(full)), env, full, imgFolder, videoFolder), env, links[1..], imgFolder, videoFolder);
      }
    }
  }

  /**
   * A page adds every link to another host twice: first rewritten from a legacy Bunkr domain,
   * then as found, after the page's own files.
   */
  lemma {:induction false} VisitPageCollects(s: PhicaState, env: Env, page: PageAnswer, imgFolder: string, videoFolder: string)
    requires page.Page?
    ensures VisitPage(s, env, page, imgFolder, videoFolder).externalLinks
            == s.externalLinks + ConvertAll(Externals(page.hrefs)) + Externals(page.hrefs)
  {
    var s1 := CollectConverted(s, page.hrefs);
    CollectConvertedLinks(s, page.hrefs);
    var s2 := Attachments(s1, env, page.attachments, imgFolder, videoFolder);
    AttachmentsKeepLinks(s1, env, page.attachments, imgFolder, videoFolder);
    var s3 := Lightbox(s2, env, page.lightbox, imgFolder, videoFolder);
    LightboxKeepsLinks(s2, env, page.lightbox, imgFolder, videoFolder);
    CollectRawLinks(s3, page.hrefs);
  }

  /** A rewritten Bunkr link still names Bunkr. */
  lemma {:induction false} ConvertedKeepsBunkr(url: string)
    requires Contains(url, "bunkr")
    ensures Contains(ConvertLegacyBunkrLink(url), "bunkr")
  {
    if IsLegacy(url) {
      var c := ConvertLegacyBunkrLink(url);
      ConvertLegacyBunkrLinkParts(url);
      var k := NetlocOccurs(c);
      NewHostNamesBunkr(c, k);
    }
  }

  lemma {:induction false} NewHostNamesBunkr(c: string, k: nat)
    requires k + 8 <= |c| && c[k..k + 8] == "bunkr.ac"
    ensures Contains(c, "bunkr")
  {
    assert c[k..k + 5] == c[k..k + 8][..5];
    ContainsAt(c, "bunkr", k);
  }

  /**
   * Because each Bunkr link is collected twice, once rewritten and once as found, the Bunkr
   * loop hands the same (rewritten) post to the Bunkr downloader twice.
   */
  lemma {:induction false} BunkrLinkDispatchedTwice(s: PhicaState, href: string)
    requires Contains(href, "bunkr") && !s.cancelRequested
    ensures var c := ConvertLegacyBunkrLink(href);
      BunkrDispatch(s, [c, href]).bunkrPosts == s.bunkrPosts + [c, c]
  {
    var c := ConvertLegacyBunkrLink(href);
    ConvertedKeepsBunkr(href);
    ConvertLegacyBunkrLinkIdempotent(href);
    BunkrDispatchTwo(s, c, href);
  }

  lemma {:induction false} BunkrDispatchTwo(s: PhicaState, a: string, b: string)
    requires Contains(a, "bunkr") && Contains(b, "bunkr") && !s.cancelRequested
    ensures BunkrDispatch(s, [a, b]).bunkrPosts == s.bunkrPosts + [ConvertLegacyBunkrLink(a), ConvertLegacyBunkrLink(b)]
  {
    BunkrDispatchPair(s, a, b);
    var t := DispatchOne(s, a);
    DispatchOnePosts(s, a);
    DispatchOnePosts(t, b);
    AppendAssoc(s.bunkrPosts, [ConvertLegacyBunkrLink(a)], [ConvertLegacyBunkrLink(b)]);
  }

  lemma {:induction false} BunkrDispatchPair(s: PhicaState, a: string, b: string)
    requires Contains(a, "bunkr") && Contains(b, "bunkr") && !s.cancelRequested
    ensures BunkrDispatch(s, [a, b]) == DispatchOne(DispatchOne(s, a), b)
  {
    var t := DispatchOne(s, a);
    DispatchOnePosts(s, a);
    assert [a, b] == [a] + [b];
    BunkrDispatchStep(s, a, [b]);
    assert [b] == [b] + [];
    BunkrDispatchStep(t, b, []);
  }

  lemma {:induction false} DispatchOnePosts(s: PhicaState, link: string)
    ensures DispatchOne(s, link).bunkrPosts == s.bunkrPosts + [ConvertLegacyBunkrLink(link)]
    ensures DispatchOne(s, link).cancelRequested == s.cancelRequested
  {
  }

  /** A Bunkr link the loop reaches without a cancel is handed on, and the loop goes on with the rest. */
  lemma {:induction false} BunkrDispatchStep(s: PhicaState, link: string, rest: seq<string>)
    requires Contains(link, "bunkr") && !s.cancelRequested
    ensures BunkrDispatch(s, [link] + rest) == BunkrDispatch(DispatchOne(s, link), rest)
  {
    assert ([link] + rest)[1..] == rest;
  }

  /**
   * `r` is `s` after the links `sent` were handed on: they are recorded, the cancel flag is set
   * and the cancel logged if the user cancelled during the last of them, and nothing else changed.
   */
  predicate HandedOn(s: PhicaState, r: PhicaState, sent: seq<string>, cancelled: string -> bool) {
    var stopped := sent != [] && cancelled(sent[|sent| - 1]);
    && r == s.(gofileLinks := r.gofileLinks, cancelRequested := r.cancelRequested, log := r.log)
    && r.gofileLinks == s.gofileLinks + sent
    && r.cancelRequested == (s.cancelRequested || stopped)
    && r.log == s.log + (if stopped then [Note(CancelledByUserText)] else [])
  }

  /**
   * The Gofile loop hands on the links up to the one during which the user cancels, none if
   * the flag is already set.
   */
  lemma {:induction false} GofileLoopDispatch(s: PhicaState, g: Gofile.GofileState, env: Env, links: seq<string>, folder: string)
    ensures HandedOn(s, GofileLoop(s, g, env, links, folder).0,
                     if s.cancelRequested then [] else UpToCancel(links, env.gofileCancel), env.gofileCancel)
    decreases |links|
  {
    if links != [] && !s.cancelRequested {
      var s1 := AfterGofileLink(s, env, links[0]);
      var g1 := GofileDownload(g, env, links[0], folder);
      GofileLoopDispatch(s1, g1, env, links[1..], folder);
      GofileLoopStep(s, g, env, links, folder);
      HandedOnCons(s, env, links, GofileLoop(s1, g1, env, links[1..], folder).0);
    }
  }

  /** Handing on the first link, then the ones after it, is handing on the links. */
  lemma {:induction false} HandedOnCons(s: PhicaState, env: Env, links: seq<string>, r: PhicaState)
    requires links != [] && !s.cancelRequested
    requires var s1 := AfterGofileLink(s, env, links[0]);
      HandedOn(s1, r, if s1.cancelRequested then [] else UpToCancel(links[1..], env.gofileCancel), env.gofileCancel)
    ensures HandedOn(s, r, UpToCancel(links, env.gofileCancel), env.gofileCancel)
  {
    var sent := UpToCancel(links, env.gofileCancel);
    if env.gofileCancel(links[0]) {
      assert sent == [links[0]];
      assert r == CancelRequested(s.(gofileLinks := s.gofileLinks + [links[0]]));
    } else {
      var rest := UpToCancel(links[1..], env.gofileCancel);
      assert sent == [links[0]] + rest;
      assert (sent != [] && env.gofileCancel(sent[|sent| - 1])) == (rest != [] && env.gofileCancel(rest[|rest| - 1]));
      assert s.gofileLinks + ([links[0]] + rest) == (s.gofileLinks + [links[0]]) + rest;
    }
  }

  /** The Gofile downloader's own cancel flag, clear at the start, stays clear through the loop. */
  lemma {:induction false} GofileDownloaderNeverCancelled(s: PhicaState, g: Gofile.GofileState, env: Env, links: seq<string>, folder: string)
    requires !g.cancelRequested
    ensures !GofileLoop(s, g, env, links, folder).1.cancelRequested
    decreases |links|
  {
    if links != [] && !s.cancelRequested {
      Gofile.DescargarKeepsFlag(g, links[0], None, env.sha256, env.sanitize, folder, env.gofileApi(links[0]));
      GofileDownloaderNeverCancelled(AfterGofileLink(s, env, links[0]), GofileDownload(g, env, links[0], folder), env, links[1..], folder);
    }
  }

  /**
   * The links `sent` are handed on from `order`, the loop's order over the Gofile links of
   * `external`: a prefix of it, without repeats, all of it unless `flag` was set at the start
   * or the user cancelled during the last link sent, none if `flag` was set, and none after a
   * cancelled link.
   */
  predicate SentFromOrder(external: seq<string>, order: seq<string>, sent: seq<string>, flag: bool, cancelled: string -> bool) {
    && |sent| <= |order| && sent == order[..|sent|]
    && (forall i, j :: 0 <= i < j < |sent| ==> sent[i] != sent[j])
    && (forall i :: 0 <= i < |sent| ==> sent[i] in external && Contains(sent[i], "gofile"))
    && (flag ==> sent == [])
    && (forall i :: 0 <= i < |sent| - 1 ==> !cancelled(sent[i]))
    && (|sent| < |order| ==> flag || (sent != [] && cancelled(sent[|sent| - 1])))
    && (!flag && (forall l :: l in external && Contains(l, "gofile") ==> !cancelled(l)) ==>
          forall l :: l in external && Contains(l, "gofile") ==> l in sent)
  }

  /**
   * `download_gofile_files` hands the distinct Gofile links of the thread to the Gofile
   * downloader in the set's order, each once however often the thread mentions it: all of them
   * when the user does not cancel, none when the flag is already set, and none after the link
   * during which the user cancels, whose cancel sets the flag.
   */
  lemma {:induction false} GofileLinksAtMostOnce(s: PhicaState, env: Env, folder: string)
    requires PicksMember(env.pick) && s.externalLinks != []
    ensures var r := GofileFiles(s, env, folder);
      && |s.gofileLinks| <= |r.gofileLinks| && r.gofileLinks[..|s.gofileLinks|] == s.gofileLinks
      && var sent := r.gofileLinks[|s.gofileLinks|..];
      && SentFromOrder(s.externalLinks, Enumerate(GofileSet(s.externalLinks), env.pick), sent, s.cancelRequested, env.gofileCancel)
      && r.cancelRequested == (s.cancelRequested || (sent != [] && env.gofileCancel(sent[|sent| - 1])))
  {
    var order := Enumerate(GofileSet(s.externalLinks), env.pick);
    GofileFilesSent(s, env, folder);
    var r := GofileFiles(s, env, folder);
    var sent := r.gofileLinks[|s.gofileLinks|..];
    assert r.gofileLinks[..|s.gofileLinks|] == s.gofileLinks;
    assert sent == if s.cancelRequested then [] else UpToCancel(order, env.gofileCancel);
    SentInOrder(s.externalLinks, order, sent, s.cancelRequested, env.gofileCancel);
  }

  /** The links handed on, taken from the loop's order over the thread's Gofile links. */
  lemma {:induction false} SentInOrder(external: seq<string>, order: seq<string>, sent: seq<string>, flag: bool, cancelled: string -> bool)
    requires forall x :: x in order <==> x in GofileSet(external)
    requires forall i, j :: 0 <= i < j < |order| ==> order[i] != order[j]
    requires sent == if flag then [] else UpToCancel(order, cancelled)
    ensures SentFromOrder(external, order, sent, flag, cancelled)
  {
    forall i | 0 <= i < |sent|
      ensures sent[i] in external && Contains(sent[i], "gofile")
    {
      assert sent[i] in order;
    }
    if !flag && (forall l :: l in external && Contains(l, "gofile") ==> !cancelled(l)) {
      assert sent == order;
      forall l | l in external && Contains(l, "gofile")
        ensures l in sent
      {
        assert l in GofileSet(external);
      }
    }
  }

  /** What `download_gofile_files` records and how it leaves the cancel flag, in terms of the loop's order. */
  lemma {:induction false} GofileFilesSent(s: PhicaState, env: Env, folder: string)
    requires PicksMember(env.pick) && s.externalLinks != []
    ensures var r := GofileFiles(s, env, folder);
      var sent := if s.cancelRequested then [] else UpToCancel(Enumerate(GofileSet(s.externalLinks), env.pick), env.gofileCancel);
      && r.gofileLinks == s.gofileLinks + sent
      && r.cancelRequested == (s.cancelRequested || (sent != [] && env.gofileCancel(sent[|sent| - 1])))
      && r.externalLinks == s.externalLinks && r.bunkrPosts == s.bunkrPosts
  {
    var s1 := Logged(s, Note(GofileStartText));
    var links := Enumerate(GofileSet(s1.externalLinks), env.pick);
    var loop := GofileLoop(s1, FreshGofile(s1.fs), env, links, folder);
    GofileLoopDispatch(s1, FreshGofile(s1.fs), env, links, folder);
    assert GofileFiles(s, env, folder) == Logged(loop.0.(fs := loop.1.fs), Note(GofileDoneText));
  }

  /**
   * A cancel pressed while the first Gofile link downloads stops the Gofile loop, yet the Bunkr
   * loop as written still hands on the thread's Bunkr link; the corrected loop hands on nothing.
   */
  lemma {:induction false} CancelDuringGofilePhase(s: PhicaState, env: Env, folder: string, gofile: string, bunkr: string)
    requires PicksMember(env.pick) && !s.cancelRequested && s.externalLinks == [gofile, bunkr]
    requires Contains(gofile, "gofile") && !Contains(gofile, "bunkr") && Contains(bunkr, "bunkr") && !Contains(bunkr, "gofile")
    requires env.gofileCancel(gofile)
    ensures ExternalFilesWith(s, env, folder, true).bunkrPosts == s.bunkrPosts + [ConvertLegacyBunkrLink(bunkr)]
    ensures ExternalFilesWith(s, env, folder, false).bunkrPosts == s.bunkrPosts
  {
    var s0 := Logged(s, Note(ExternalStartText));
    OnlyGofileLinkCancelled(s0, env, folder, gofile, bunkr);
    BunkrPassAfterCancel(GofileFiles(s0, env, folder), gofile, bunkr);
  }

  /** With the flag set, the Bunkr loop as written still posts the Bunkr link; the corrected one posts nothing. */
  lemma {:induction false} BunkrPassAfterCancel(s: PhicaState, other: string, bunkr: string)
    requires s.cancelRequested && s.externalLinks == [other, bunkr] && !Contains(other, "bunkr") && Contains(bunkr, "bunkr")
    ensures BunkrDispatchAsWritten(s, s.externalLinks).bunkrPosts == s.bunkrPosts + [ConvertLegacyBunkrLink(bunkr)]
    ensures BunkrDispatch(s, s.externalLinks) == s
  {
    assert [other, bunkr][1..] == [bunkr] && [bunkr][1..] == [];
    assert BunkrDispatchAsWritten(s, [other, bunkr]) == BunkrDispatchAsWritten(s, [bunkr]);
  }

  /** A cancel during the only Gofile link of the thread leaves the flag set after the Gofile pass. */
  lemma {:induction false} OnlyGofileLinkCancelled(s: PhicaState, env: Env, folder: string, gofile: string, other: string)
    requires PicksMember(env.pick) && !s.cancelRequested && s.externalLinks == [gofile, other]
    requires Contains(gofile, "gofile") && !Contains(other, "gofile") && env.gofileCancel(gofile)
    ensures var r := GofileFiles(s, env, folder);
      r.cancelRequested && r.externalLinks == s.externalLinks && r.bunkrPosts == s.bunkrPosts
  {
    assert GofileSet(s.externalLinks) == {gofile};
    EnumerateStep({gofile}, env.pick);
    assert Enumerate({gofile}, env.pick) == [gofile];
    GofileFilesSent(s, env, folder);
  }

  /**
   * As written, the Bunkr loop of `download_external_files` hands posts to the Bunkr downloader
   * even when the user has cancelled.
   */
  lemma {:induction false} BunkrDispatchAsWrittenIgnoresCancel(s: PhicaState, link: string)
    requires s.cancelRequested && Contains(link, "bunkr")
    ensures BunkrDispatchAsWritten(s, [link]).bunkrPosts == s.bunkrPosts + [ConvertLegacyBunkrLink(link)]
  {
    assert [link][1..] == [];
  }

  /** The corrected loop hands nothing on after a cancel, and without one behaves as written. */
  lemma {:induction false} BunkrDispatchStopsOnCancel(s: PhicaState, links: seq<string>)
    ensures s.cancelRequested ==> BunkrDispatch(s, links) == s
    ensures !s.cancelRequested ==> BunkrDispatch(s, links) == BunkrDispatchAsWritten(s, links)
  {
    if !s.cancelRequested {
      BunkrDispatchAgrees(s, links);
    }
  }

  lemma {:induction false} BunkrDispatchAgrees(s: PhicaState, links: seq<string>)
    requires !s.cancelRequested
    ensures BunkrDispatch(s, links) == BunkrDispatchAsWritten(s, links)
    decreases |links|
  {
    if links != [] {
      if Contains(links[0], "bunkr") {
        BunkrDispatchAgrees(DispatchOne(s, links[0]), links[1..]);
      } else {
        BunkrDispatchAgrees(s, links[1..]);
      }
    }
  }

  /** The Bunkr loop hands on the rewritten Bunkr links, in order. */
  lemma {:induction false} BunkrDispatchPosts(s: PhicaState, links: seq<string>)
    requires !s.cancelRequested
    ensures BunkrDispatch(s, links).bunkrPosts == s.bunkrPosts + ConvertAll(BunkrLinks(links))
    decreases |links|
  {
    if links != [] {
      if Contains(links[0], "bunkr") {
        var c := ConvertLegacyBunkrLink(links[0]);
        var s1 := DispatchOne(s, links[0]);
        assert BunkrDispatch(s, links) == BunkrDispatch(s1, links[1..]);
        BunkrDispatchPosts(s1, links[1..]);
        var rest := BunkrLinks(links[1..]);
        assert BunkrLinks(links) == [links[0]] + rest;
        ConvertAllCons(links[0], rest);
        AppendAssoc(s.bunkrPosts, [c], ConvertAll(rest));
      } else {
        assert BunkrLinks(links) == BunkrLinks(links[1..]);
        BunkrDispatchPosts(s, links[1..]);
      }
    }
  }

  /** The links naming Bunkr, in order. */
  function BunkrLinks(links: seq<string>): (r: seq<string>)
    ensures |r| <= |links| && forall i :: 0 <= i < |r| ==> Contains(r[i], "bunkr")
  {
    if links == [] then []
    else (if Contains(links[0], "bunkr") then [links[0]] else []) + BunkrLinks(links[1..])
  }

  /** The Bunkr loop as written hands on every rewritten Bunkr link, in order, whatever the flag. */
  lemma {:induction false} BunkrDispatchAsWrittenPosts(s: PhicaState, links: seq<string>)
    ensures BunkrDispatchAsWritten(s, links).bunkrPosts == s.bunkrPosts + ConvertAll(BunkrLinks(links))
    decreases |links|
  {
    if links != [] {
      if Contains(links[0], "bunkr") {
        var c := ConvertLegacyBunkrLink(links[0]);
        var s1 := DispatchOne(s, links[0]);
        BunkrDispatchAsWrittenPosts(s1, links[1..]);
        var rest := BunkrLinks(links[1..]);
        assert BunkrLinks(links) == [links[0]] + rest;
        ConvertAllCons(links[0], rest);
        AppendAssoc(s.bunkrPosts, [c], ConvertAll(rest));
      } else {
        assert BunkrLinks(links) == BunkrLinks(links[1..]);
        BunkrDispatchAsWrittenPosts(s, links[1..]);
      }
    }
  }

  /** With the flag already set, the Gofile pass downloads nothing and keeps the flag, the links and the posts. */
  lemma {:induction false} GofileFilesAfterCancel(s: PhicaState, env: Env, folder: string)
    requires PicksMember(env.pick) && s.cancelRequested
    ensures var r := GofileFiles(s, env, folder);
      && r.cancelRequested && r.externalLinks == s.externalLinks && r.bunkrPosts == s.bunkrPosts
      && r.gofileLinks == s.gofileLinks && r.fs == s.fs
  {
  }

  /**
   * An external pass entered with the flag set: the Bunkr loop as written still hands on every
   * rewritten Bunkr link of the thread, the corrected loop none.
   */
  lemma {:induction false} ExternalFilesAfterCancel(s: PhicaState, env: Env, folder: string)
    requires PicksMember(env.pick) && s.cancelRequested
    ensures ExternalFilesWith(s, env, folder, true).bunkrPosts == s.bunkrPosts + ConvertAll(BunkrLinks(s.externalLinks))
    ensures ExternalFilesWith(s, env, folder, false).bunkrPosts == s.bunkrPosts
  {
    if s.externalLinks != [] {
      var s1 := GofileFiles(Logged(s, Note(ExternalStartText)), env, folder);
      GofileFilesAfterCancel(Logged(s, Note(ExternalStartText)), env, folder);
      BunkrDispatchAsWrittenPosts(s1, s1.externalLinks);
      BunkrDispatchStopsOnCancel(s1, s1.externalLinks);
    } else {
      assert BunkrLinks(s.externalLinks) == [];
    }
  }

  /**
   * A cancel pressed while the first page of a thread is visited (during one of its attachment
   * or lightbox downloads): `download_files` as written still hands every rewritten Bunkr link the
   * page collected to the Bunkr downloader, the corrected program none.
   */
  lemma {:induction false} CancelDuringFirstPage(s: PhicaState, env: Env, link: string, pages: seq<PageAnswer>, downloadFolder: string)
    requires Complete(pages) && PicksMember(env.pick) && pages[0].Page? && ThreadTitle(pages[0]) != ""
    requires var threadFolder := PathJoin(downloadFolder, SanitizeFolderName(ThreadTitle(pages[0])));
      VisitPage(s.(cancelRequested := false, requested := s.requested + [link]), env, pages[0],
                PathJoin(threadFolder, "img"), PathJoin(threadFolder, "videos")).cancelRequested
    ensures var threadFolder := PathJoin(downloadFolder, SanitizeFolderName(ThreadTitle(pages[0])));
      var v := VisitPage(s.(cancelRequested := false, requested := s.requested + [link]), env, pages[0],
                         PathJoin(threadFolder, "img"), PathJoin(threadFolder, "videos"));
      && DownloadFilesSpec(s, env, link, pages, downloadFolder, true).bunkrPosts == v.bunkrPosts + ConvertAll(BunkrLinks(v.externalLinks))
      && DownloadFilesSpec(s, env, link, pages, downloadFolder, false).bunkrPosts == v.bunkrPosts
  {
    var threadFolder := PathJoin(downloadFolder, SanitizeFolderName(ThreadTitle(pages[0])));
    var img := PathJoin(threadFolder, "img");
    var videos := PathJoin(threadFolder, "videos");
    var v := VisitPage(s.(cancelRequested := false, requested := s.requested + [link]), env, pages[0], img, videos);
    PaginateFailsOnlyOnFetchError(v, env, pages, 0, img, videos);
    ExternalFilesAfterCancel(v, env, threadFolder);
  }

  /**
   * The pagination loop does nothing once the flag is set, and it reports a failure only when
   * one of the pages it fetched could not be fetched.
   */
  lemma {:induction false} PaginateFailsOnlyOnFetchError(s: PhicaState, env: Env, pages: seq<PageAnswer>, k: nat, imgFolder: string, videoFolder: string)
    requires Complete(pages) && k < |pages| && pages[k].Page?
    ensures s.cancelRequested ==> Paginate(s, env, pages, k, imgFolder, videoFolder) == (s, true)
    ensures (forall j :: k < j < |pages| ==> pages[j].Page?) ==> Paginate(s, env, pages, k, imgFolder, videoFolder).1
    decreases |pages| - k
  {
    var next := NextPageUrl(s, env, pages[k]);
    if !(next.None? || next.value == "" || s.cancelRequested) {
      var s1 := Logged(s, FoundNextPage(next.value)).(requested := s.requested + [next.value]);
      if pages[k + 1].Page? {
        PaginateFailsOnlyOnFetchError(VisitPage(s1, env, pages[k + 1], imgFolder, videoFolder), env, pages, k + 1, imgFolder, videoFolder);
      }
    }
  }

  // ---------------------------------------------------------------------------------------------
  // The downloader object

  class Phica {
    /**
     * The table behind the window's `tr`, which Phica and its Gofile downloader apply to every
     * message. The empty `translations` dict Phica hands to its Bunkr downloader is not a field
     * here, since Bunkr posts are only recorded.
     */
    const trTable: map<string, string>
    const downloadFolder: string
    var baseUrl: string
    var cancelRequested: bool
    var log: seq<Message>
    var externalLinks: seq<string>
    var descargadas: set<string>
    var fs: set<string>
    var requested: seq<string>
    var gofileLinks: seq<string>
    var bunkrPosts: seq<string>

    function Snapshot(): PhicaState
      reads this
    {
      PhicaState(baseUrl, cancelRequested, log, externalLinks, descargadas, fs, requested, gofileLinks, bunkrPosts)
    }

    /** The messages as the window receives them. */
    function LogText(): (r: seq<string>)
      reads this
      ensures |r| == |log| && forall i :: 0 <= i < |r| ==> r[i] == Lookup(trTable, MessageText(log[i]))
    {
      seq(|log|, i requires 0 <= i < |log| reads this => Lookup(trTable, MessageText(log[i])))
    }

    constructor(trTable: map<string, string>, downloadFolder: string, fs: set<string>)
      ensures this.trTable == trTable && this.downloadFolder == downloadFolder
      ensures Snapshot() == PhicaState("", false, [], [], {}, fs, [], [], [])
    {
      this.trTable := trTable;
      this.downloadFolder := downloadFolder;
      baseUrl := "";
      cancelRequested := false;
      log := [];
      externalLinks := [];
      descargadas := {};
      this.fs := fs;
      requested := [];
      gofileLinks := [];
      bunkrPosts := [];
    }

    method Log(m: Message)
      modifies this
      ensures Snapshot() == Logged(old(Snapshot()), m)
    {
      log := log + [m];
    }

    method RequestCancel()
      modifies this
      ensures Snapshot() == CancelRequested(old(Snapshot()))
    {
      cancelRequested := true;
      Log(Note(CancelledByUserText));
    }

    /** `convert_legacy_bunkr_link(url)`. */
    method ConvertLink(url: string) returns (r: string)
      modifies this
      ensures (Snapshot(), r) == Conversion(old(Snapshot()), url)
    {
      if IsLegacy(url) {
        r := UrlUnparse(UrlParse(url).(netloc := NewBunkrDomains[0]), UrlParams(url));
        Log(Converted(url, r));
      } else {
        r := url;
        assert log + ConversionLog(url) == log;
      }
    }

    /** The chunk loop of `download_file`: a `Cancel` is `request_cancel()`, and a chunk found with the flag set ends the loop. */
    method WriteChunks(body: seq<Event>)
      modifies this
      ensures Snapshot() == Chunks(old(Snapshot()), body)
    {
      ghost var goal := Chunks(Snapshot(), body);
      for i := 0 to |body|
        invariant Chunks(Snapshot(), body[i..]) == goal
      {
        assert body[i..][1..] == body[i + 1..];
        match body[i]
        case Cancel =>
          RequestCancel();
        case Data(_) =>
          if cancelRequested {
            break;
          }
      }
      assert body[|body|..] == [];
    }

    /** `download_file(url, img, videos)`. */
    method DownloadFile(url: string, imgFolder: string, videoFolder: string, env: Env)
      modifies this
      ensures Snapshot() == FileDownload(old(Snapshot()), env, url, imgFolder, videoFolder)
    {
      if cancelRequested {
        return;
      }
      var name := UniqueFileName(env.md5, url);
      var ext := GetFileExtension(url);
      var target := if ext in ImageExtensions then imgFolder else if ext in VideoExtensions then videoFolder else imgFolder;
      var path := PathJoin(target, name);
      if path in fs {
        Log(AlreadyExists(name));
        return;
      }
      var resp := env.files(url);
      requested := requested + [url];
      if IsHttpError(resp.status) {
        Log(DownloadError(resp.status as nat, resp.reason, url));
        return;
      }
      fs := fs + {path};
      WriteChunks(resp.body);
      if !cancelRequested {
        Log(Saved(path));
        descargadas := descargadas + {name};
      }
    }

    method CollectConvertedLinks(hrefs: seq<string>)
      modifies this
      ensures Snapshot() == CollectConverted(old(Snapshot()), hrefs)
    {
      ghost var goal := CollectConverted(Snapshot(), hrefs);
      for i := 0 to |hrefs|
        invariant CollectConverted(Snapshot(), hrefs[i..]) == goal
      {
        assert hrefs[i..][1..] == hrefs[i + 1..];
        if IsExternal(hrefs[i]) {
          var converted := ConvertLink(hrefs[i]);
          externalLinks := externalLinks + [converted];
          Log(FoundExternal(converted));
        }
      }
      assert hrefs[|hrefs|..] == [];
    }

    method CollectRawLinks(hrefs: seq<string>)
      modifies this
      ensures Snapshot() == CollectRaw(old(Snapshot()), hrefs)
    {
      ghost var goal := CollectRaw(Snapshot(), hrefs);
      for i := 0 to |hrefs|
        invariant CollectRaw(Snapshot(), hrefs[i..]) == goal
      {
        assert hrefs[i..][1..] == hrefs[i + 1..];
        if IsExternal(hrefs[i]) {
          externalLinks := externalLinks + [hrefs[i]];
          Log(FoundExternal(hrefs[i]));
        }
      }
      assert hrefs[|hrefs|..] == [];
    }

    method DownloadAttachments(rels: seq<string>, imgFolder: string, videoFolder: string, env: Env)
      modifies this
      ensures Snapshot() == Attachments(old(Snapshot()), env, rels, imgFolder, videoFolder)
    {
      ghost var goal := Attachments(Snapshot(), env, rels, imgFolder, videoFolder);
      for i := 0 to |rels|
        invariant Attachments(Snapshot(), env, rels[i..], imgFolder, videoFolder) == goal
      {
        assert rels[i..][1..] == rels[i + 1..];
        if cancelRequested {
          break;
        }
        var full := env.urljoin(baseUrl, rels[i]);
        Log(FoundAttachment(full));
        DownloadFile(full, imgFolder, videoFolder, env);
      }
      assert rels[|rels|..] == [];
    }

    method DownloadLightbox(links: seq<Option<string>>, imgFolder: string, videoFolder: string, env: Env)
      modifies this
      ensures Snapshot() == Lightbox(old(Snapshot()), env, links, imgFolder, videoFolder)
    {
      ghost var goal := Lightbox(Snapshot(), env, links, imgFolder, videoFolder);
      for i := 0 to |links|
        invariant Lightbox(Snapshot(), env, links[i..], imgFolder, videoFolder) == goal
      {
        assert links[i..][1..] == links[i + 1..];
        if cancelRequested {
          break;
        }
        if links[i].Some? && links[i].value != "" {
          var full := env.urljoin(baseUrl, links[i].value);
          Log(FoundLightbox(full));
          DownloadFile(full, imgFolder, videoFolder, env);
        }
      }
      assert links[|links|..] == [];
    }

    /** `download_files_from_page(page, img, videos)`. */
    method DownloadFilesFromPage(page: PageAnswer, imgFolder: string, videoFolder: string, env: Env)
      requires page.Page?
      modifies this
      ensures Snapshot() == VisitPage(old(Snapshot()), env, page, imgFolder, videoFolder)
    {
      CollectConvertedLinks(page.hrefs);
      DownloadAttachments(page.attachments, imgFolder, videoFolder, env);
      DownloadLightbox(page.lightbox, imgFolder, videoFolder, env);
      CollectRawLinks(page.hrefs);
    }

    /** The pagination loop of `download_files`; false when a page could not be fetched. */
    method FollowPages(pages: seq<PageAnswer>, imgFolder: string, videoFolder: string, env: Env) returns (ok: bool)
      requires Complete(pages) && pages[0].Page?
      modifies this
      ensures (Snapshot(), ok) == Paginate(old(Snapshot()), env, pages, 0, imgFolder, videoFolder)
    {
      ghost var goal := Paginate(Snapshot(), env, pages, 0, imgFolder, videoFolder);
      var k := 0;
      var next := NextPageUrl(Snapshot(), env, pages[0]);
      while next.Some? && next.value != "" && !cancelRequested
        invariant k < |pages| && pages[k].Page?
        invariant next == NextPageUrl(Snapshot(), env, pages[k])
        invariant Paginate(Snapshot(), env, pages, k, imgFolder, videoFolder) == goal
        decreases |pages| - k
      {
        Log(FoundNextPage(next.value));
        requested := requested + [next.value];
        match pages[k + 1]
        case PageFailed(status, reason) =>
          Log(PageError(status, reason, next.value));
          return false;
        case Page(_, _, _, _, _) =>
          DownloadFilesFromPage(pages[k + 1], imgFolder, videoFolder, env);
          k := k + 1;
          next := if pages[k].next.Some? then Some(env.urljoin(baseUrl, pages[k].next.value)) else None;
      }
      return true;
    }

    /** The loop building the set of Gofile links. */
    method GofileLinkSet() returns (unique: set<string>)
      ensures unique == GofileSet(externalLinks)
    {
      unique := {};
      for i := 0 to |externalLinks|
        invariant unique == GofileSet(externalLinks[..i])
      {
        assert externalLinks[..i + 1] == externalLinks[..i] + [externalLinks[i]];
        if Contains(externalLinks[i], "gofile") {
          unique := unique + {externalLinks[i]};
        }
      }
      assert externalLinks[..|externalLinks|] == externalLinks;
    }

    /** `download_gofile_files(folder)`. */
    method DownloadGofileFiles(folder: string, env: Env)
      requires PicksMember(env.pick)
      modifies this
      ensures Snapshot() == GofileFiles(old(Snapshot()), env, folder)
    {
      if externalLinks == [] {
        return;
      }
      Log(Note(GofileStartText));
      var g := new Gofile.GofileDownloader(trTable, folder, fs);
      var unique := GofileLinkSet();
      DownloadEach(g, unique, folder, env);
      fs := g.fs;
      Log(Note(GofileDoneText));
    }

    /**
     * One round of the Gofile loop: the link is recorded and handed to the Gofile downloader;
     * a Cancel pressed meanwhile goes to this object's `request_cancel`.
     */
    method DownloadOneGofile(g: Gofile.GofileDownloader, link: string, env: Env)
      modifies this, g
      ensures Snapshot() == AfterGofileLink(old(Snapshot()), env, link)
      ensures g.Snapshot() == GofileDownload(old(g.Snapshot()), env, link, g.downloadFolder)
    {
      gofileLinks := gofileLinks + [link];
      g.DescargarGofile(link, None, env.sha256, env.sanitize, Gofile.MutedApi(env.gofileApi(link)));
      if env.gofileCancel(link) {
        RequestCancel();
      }
    }

    /** The loop of `download_gofile_files` over the set of Gofile links, in the set's order. */
    method DownloadEach(g: Gofile.GofileDownloader, links: set<string>, folder: string, env: Env)
      requires PicksMember(env.pick) && g.downloadFolder == folder
      modifies this, g
      ensures (Snapshot(), g.Snapshot()) == GofileLoop(old(Snapshot()), old(g.Snapshot()), env, Enumerate(links, env.pick), folder)
    {
      ghost var goal := GofileLoop(Snapshot(), g.Snapshot(), env, Enumerate(links, env.pick), folder);
      var remaining := links;
      while remaining != {}
        invariant GofileLoop(Snapshot(), g.Snapshot(), env, Enumerate(remaining, env.pick), folder) == goal
        decreases |remaining|
      {
        if cancelRequested {
          break;
        }
        var link := env.pick(remaining);
        GofileLoopPick(Snapshot(), g.Snapshot(), env, remaining, folder);
        remaining := remaining - {link};
        DownloadOneGofile(g, link, env);
      }
    }

    /** `download_external_files(folder)`, the Bunkr loop stopping on the cancel flag. */
    method DownloadExternalFiles(folder: string, env: Env)
      requires PicksMember(env.pick)
      modifies this
      ensures Snapshot() == ExternalFilesWith(old(Snapshot()), env, folder, false)
    {
      if externalLinks == [] {
        return;
      }
      Log(Note(ExternalStartText));
      DownloadGofileFiles(folder, env);
      DispatchBunkr(externalLinks, false);
      Log(Note(ExternalDoneText));
    }

    /** `download_external_files(folder)` as written. */
    method DownloadExternalFilesAsWritten(folder: string, env: Env)
      requires PicksMember(env.pick)
      modifies this
      ensures Snapshot() == ExternalFilesWith(old(Snapshot()), env, folder, true)
    {
      if externalLinks == [] {
        return;
      }
      Log(Note(ExternalStartText));
      DownloadGofileFiles(folder, env);
      DispatchBunkr(externalLinks, true);
      Log(Note(ExternalDoneText));
    }

    /** The Bunkr loop; `asWritten` leaves out the cancel check. */
    method DispatchBunkr(links: seq<string>, asWritten: bool)
      modifies this
      ensures Snapshot() == (if asWritten then BunkrDispatchAsWritten(old(Snapshot()), links) else BunkrDispatch(old(Snapshot()), links))
    {
      ghost var goal := if asWritten then BunkrDispatchAsWritten(Snapshot(), links) else BunkrDispatch(Snapshot(), links);
      for i := 0 to |links|
        invariant goal == (if asWritten then BunkrDispatchAsWritten(Snapshot(), links[i..]) else BunkrDispatch(Snapshot(), links[i..]))
      {
        assert links[i..][1..] == links[i + 1..];
        if !asWritten && cancelRequested {
          break;
        }
        if Contains(links[i], "bunkr") {
          var converted := ConvertLink(links[i]);
          bunkrPosts := bunkrPosts + [converted];
        }
      }
      assert links[|links|..] == [];
    }

    /**
     * `download_files(link)`; `pages` are the thread's pages in the order they are fetched, and
     * `asWritten` chooses the Bunkr loop as written or the corrected one.
     */
    method DownloadFiles(link: string, pages: seq<PageAnswer>, env: Env, asWritten: bool)
      requires Complete(pages) && PicksMember(env.pick)
      modifies this
      ensures Snapshot() == DownloadFilesSpec(old(Snapshot()), env, link, pages, downloadFolder, asWritten)
    {
      cancelRequested := false;
      requested := requested + [link];
      match pages[0]
      case PageFailed(status, reason) =>
        Log(PageError(status, reason, link));
      case Page(_, _, _, _, _) =>
        var title := ThreadTitle(pages[0]);
        if title == "" {
          Log(Note(NoTitleText));
          return;
        }
        var threadFolder := PathJoin(downloadFolder, SanitizeFolderName(title));
        var img := PathJoin(threadFolder, "img");
        var videos := PathJoin(threadFolder, "videos");
        DownloadFilesFromPage(pages[0], img, videos, env);
        var ok := FollowPages(pages, img, videos, env);
        if ok && asWritten {
          DownloadExternalFilesAsWritten(threadFolder, env);
        } else if ok {
          DownloadExternalFiles(threadFolder, env);
        }
    }

    /** `download_images_from_phica(url)`, `asWritten` choosing the Bunkr loop as for `DownloadFiles`. */
    method DownloadImagesFromPhica(url: string, pages: seq<PageAnswer>, env: Env, asWritten: bool)
      requires Complete(pages) && PicksMember(env.pick)
      modifies this
      ensures Snapshot() == Logged(DownloadFilesSpec(Logged(old(Snapshot()).(baseUrl := url), Processing(url)), env, url, pages, downloadFolder, asWritten),
                                   Note(ThreadDoneText))
    {
      baseUrl := url;
      Log(Processing(url));
      DownloadFiles(url, pages, env, asWritten);
      Log(Note(ThreadDoneText));
    }
  }
}
