/**
 * The Gofile downloader: it caches an account token and the website token ("wt") read from the
 * site's script, asks the contents API for the tree of a shared folder, flattens the tree into
 * one download per file, and streams each file to disk unless it is already there.
 *
 * The object is the class `GofileDownloader`; `GofileState` is a snapshot of it, and the
 * functions on snapshots (`UpdatedToken`, `UpdatedWt`, `FileDownload`, `DownloadAll`,
 * `Descargar`) specify what its methods do.
 */
module Gofile {
  import opened Wrappers
  import opened Text
  import opened Urls
  import opened Translation
  import opened Net

  // ---------------------------------------------------------------------------------------------
  // The content tree and its flattening

  /** A node of the tree the contents API returns: a folder with its children, or a file with its link. */
  datatype Content = Folder(name: string, children: seq<Content>) | Item(name: string, link: string)

  /** One call of `download_file(link, file_path)`. */
  datatype Request = Request(link: string, path: string)

  /**
   * `_process_content(content, base)`, with each download it starts emitted as a request: a
   * folder descends into `base/sanitize(name)` and visits its children in order, a file is
   * saved as `base/sanitize(name)`. `sanitize` is `pathvalidate.sanitize_filename`.
   */
  function ProcessContent(sanitize: string -> string, c: Content, base: string): seq<Request>
    decreases c
  {
    match c
    case Item(name, link) => [Request(link, PathJoin(base, sanitize(name)))]
    case Folder(name, children) => ProcessChildren(sanitize, children, PathJoin(base, sanitize(name)))
  }

  /** The loop of `_process_content` over the children of a folder. */
  function ProcessChildren(sanitize: string -> string, cs: seq<Content>, base: string): seq<Request>
    decreases cs
  {
    if cs == [] then [] else ProcessContent(sanitize, cs[0], base) + ProcessChildren(sanitize, cs[1..], base)
  }

  /** A file of the tree: the names of the folders above it (outermost first), its name and its link. */
  datatype Leaf = Leaf(folders: seq<string>, name: string, link: string)

  /** The files of a tree, in the order of the children, each with the folders leading to it. */
  function Leaves(c: Content): seq<Leaf>
    decreases c
  {
    match c
    case Item(name, link) => [Leaf([], name, link)]
    case Folder(name, children) => Under(name, LeavesOf(children))
  }

  function LeavesOf(cs: seq<Content>): seq<Leaf>
    decreases cs
  {
    if cs == [] then [] else Leaves(cs[0]) + LeavesOf(cs[1..])
  }

  /** The same files one folder further down. */
  function Under(folder: string, ls: seq<Leaf>): (r: seq<Leaf>)
    ensures |r| == |ls| && forall i :: 0 <= i < |ls| ==> r[i] == ls[i].(folders := [folder] + ls[i].folders)
  {
    if ls == [] then [] else [ls[0].(folders := [folder] + ls[0].folders)] + Under(folder, ls[1..])
  }

  /** `os.path.join(base, parts[0], parts[1], ...)`. */
  function JoinAll(base: string, parts: seq<string>): string
    decreases |parts|
  {
    if parts == [] then base else JoinAll(PathJoin(base, parts[0]), parts[1..])
  }

  /** The download of a file: its link, and the path made of the sanitized names of its folders and its own. */
  function RequestFor(sanitize: string -> string, base: string, l: Leaf): Request {
    Request(l.link, JoinAll(base, SanitizeAll(sanitize, l.folders + [l.name])))
  }

  function SanitizeAll(sanitize: string -> string, names: seq<string>): (r: seq<string>)
    ensures |r| == |names| && forall i :: 0 <= i < |names| ==> r[i] == sanitize(names[i])
  {
    if names == [] then [] else [sanitize(names[0])] + SanitizeAll(sanitize, names[1..])
  }

  function RequestsFor(sanitize: string -> string, base: string, ls: seq<Leaf>): (r: seq<Request>)
    ensures |r| == |ls| && forall i :: 0 <= i < |ls| ==> r[i] == RequestFor(sanitize, base, ls[i])
  {
    if ls == [] then [] else [RequestFor(sanitize, base, ls[0])] + RequestsFor(sanitize, base, ls[1..])
  }

  /** A file one folder further down is saved under the folder's sanitized name. */
  lemma {:induction false} RequestForUnder(sanitize: string -> string, base: string, folder: string, l: Leaf)
    ensures RequestFor(sanitize, base, l.(folders := [folder] + l.folders)) == RequestFor(sanitize, PathJoin(base, sanitize(folder)), l)
  {
    var names := l.folders + [l.name];
    assert l.(folders := [folder] + l.folders).folders + [l.name] == [folder] + names;
    var sn' := SanitizeAll(sanitize, [folder] + names);
    assert sn'[1..] == SanitizeAll(sanitize, names);
  }

  /** A file one folder further down is saved under the folder's sanitized name. */
  lemma {:induction false} RequestsForUnder(sanitize: string -> string, base: string, folder: string, ls: seq<Leaf>)
    ensures RequestsFor(sanitize, base, Under(folder, ls)) == RequestsFor(sanitize, PathJoin(base, sanitize(folder)), ls)
  {
    var a := RequestsFor(sanitize, base, Under(folder, ls));
    var b := RequestsFor(sanitize, PathJoin(base, sanitize(folder)), ls);
    forall i | 0 <= i < |ls|
      ensures a[i] == b[i]
    {
      RequestForUnder(sanitize, base, folder, ls[i]);
    }
  }

  lemma {:induction false} RequestsForAppend(sanitize: string -> string, base: string, a: seq<Leaf>, b: seq<Leaf>)
    ensures RequestsFor(sanitize, base, a + b) == RequestsFor(sanitize, base, a) + RequestsFor(sanitize, base, b)
  {
    var l := RequestsFor(sanitize, base, a + b);
    var ra := RequestsFor(sanitize, base, a);
    var rb := RequestsFor(sanitize, base, b);
    forall i | 0 <= i < |l|
      ensures l[i] == (ra + rb)[i]
    {
      if i < |a| {
        assert (a + b)[i] == a[i];
      } else {
        assert (a + b)[i] == b[i - |a|];
      }
    }
  }

  /**
   * `_process_content` starts exactly one download per file of the tree and none for a folder:
   * the requests are, in order, those of the files, each saved under the sanitized names of
   * the folders above it and its own sanitized name.
   */
  lemma {:induction false} ProcessContentIsLeaves(sanitize: string -> string, c: Content, base: string)
    ensures ProcessContent(sanitize, c, base) == RequestsFor(sanitize, base, Leaves(c))
    decreases c
  {
    match c
    case Item(name, link) =>
      assert [] + [name] == [name];
      assert SanitizeAll(sanitize, [name]) == [sanitize(name)];
      assert [sanitize(name)][1..] == [];
      assert JoinAll(base, [sanitize(name)]) == PathJoin(base, sanitize(name));
    case Folder(name, children) =>
      var inner := PathJoin(base, sanitize(name));
      ProcessChildrenIsLeaves(sanitize, children, inner);
      RequestsForUnder(sanitize, base, name, LeavesOf(children));
  }

  lemma {:induction false} ProcessChildrenIsLeaves(sanitize: string -> string, cs: seq<Content>, base: string)
    ensures ProcessChildren(sanitize, cs, base) == RequestsFor(sanitize, base, LeavesOf(cs))
    decreases cs
  {
    if cs != [] {
      ProcessContentIsLeaves(sanitize, cs[0], base);
      ProcessChildrenIsLeaves(sanitize, cs[1..], base);
      RequestsForAppend(sanitize, base, Leaves(cs[0]), LeavesOf(cs[1..]));
    }
  }

  /** `url.split("/")[-1]`: the part of the URL after its last '/'. */
  function ContentId(url: string): (r: string)
    ensures forall j :: 0 <= j < |r| ==> r[j] != '/'
    ensures EndsWith(url, r)
    ensures |r| < |url| ==> url[|url| - |r| - 1] == '/'
  {
    match LastIndexOfChar(url, '/')
    case None => url
    case Some(i) => url[i + 1..]
  }

  /** The id of a link `.../id` is `id`. */
  lemma {:induction false} ContentIdOfLink(prefix: string, id: string)
    requires forall j :: 0 <= j < |id| ==> id[j] != '/'
    ensures ContentId(prefix + "/" + id) == id
  {
    var url := prefix + "/" + id;
    var r := ContentId(url);
    var k := |url| - |id| - 1;
    assert url[k] == '/';
    assert forall j :: k < j < |url| ==> url[j] == id[j - k - 1];
    assert LastIndexOfChar(url, '/') == Some(k);
    assert url[k + 1..] == id;
  }

  // ---------------------------------------------------------------------------------------------
  // The two cached tokens

  /** Python's truth test on the cached value: `None` and "" both count as not yet obtained. */
  predicate Unset(o: Option<string>) {
    o.None? || o.value == ""
  }

  /** What `appdata.wt = "` is searched for in the site's script. */
  const Marker: string := "appdata.wt = \""

  /** The text after the first marker. */
  function AfterMarker(js: string): (r: string)
    requires Contains(js, Marker)
    ensures EndsWith(js, r)
  {
    js[IndexOf(js, Marker).value + |Marker|..]
  }

  /** `rest.split(marker)[0]`: the text before the next marker. */
  function BeforeMarker(rest: string): (r: string)
    ensures StartsWith(rest, r)
  {
    match IndexOf(rest, Marker) case Some(j) => rest[..j] case None => rest
  }

  /** `piece.split('"')[0]`: the text before the first quote. */
  function BeforeQuote(piece: string): (r: string)
    ensures StartsWith(piece, r)
    ensures forall j :: 0 <= j < |r| ==> r[j] != '"'
  {
    match IndexOfChar(piece, '"') case Some(k) => piece[..k] case None => piece
  }

  /**
   * `js.split('appdata.wt = "')[1].split('"')[0]`: the text after the first marker, up to the
   * next '"' or the next marker, whichever comes first.
   */
  function ExtractWt(js: string): (r: string)
    requires Contains(js, Marker)
    ensures forall j :: 0 <= j < |r| ==> r[j] != '"'
    ensures StartsWith(AfterMarker(js), r)
  {
    var rest := AfterMarker(js);
    var piece := BeforeMarker(rest);
    var r := BeforeQuote(piece);
    assert rest[..|r|] == piece[..|r|];
    r
  }

  /** No occurrence of the marker starts inside a text without a '"'. */
  lemma {:induction false} NoMarkerBefore(pre: string, tail: string)
    requires forall j :: 0 <= j < |pre| ==> pre[j] != '"'
    ensures forall j :: 0 <= j < |pre| ==> !StartsWith((pre + Marker + tail)[j..], Marker)
  {
    var text := pre + Marker + tail;
    forall j | 0 <= j < |pre|
      ensures !StartsWith(text[j..], Marker)
    {
      if j + 13 < |pre| {
        assert text[j + 13] == pre[j + 13];
      } else {
        assert text[j + 13] == Marker[j + 13 - |pre|];
      }
      assert |text[j..]| >= 14 ==> text[j..][..14][13] == text[j + 13];
    }
  }

  /** No occurrence of the marker starts inside a token without spaces and quotes before a '"'. */
  lemma {:induction false} NoMarkerInToken(w: string, tail: string)
    requires forall j :: 0 <= j < |w| ==> w[j] != '"' && w[j] != ' '
    ensures forall j :: 0 <= j < |w| ==> !StartsWith((w + "\"" + tail)[j..], Marker)
  {
    var rest := w + "\"" + tail;
    forall j | 0 <= j < |w|
      ensures !StartsWith(rest[j..], Marker)
    {
      if j + 10 < |w| {
        assert rest[j + 10] == w[j + 10];
        assert |rest[j..]| >= 14 ==> rest[j..][..14][10] == rest[j + 10];
      } else {
        assert rest[|w|] == '"';
        assert |rest[j..]| >= 14 ==> rest[j..][..14][|w| - j] == rest[|w|];
      }
    }
  }

  /** The first occurrence of the marker after a quote-free prefix is right after that prefix. */
  lemma {:induction false} MarkerAt(pre: string, tail: string)
    requires forall j :: 0 <= j < |pre| ==> pre[j] != '"'
    ensures Contains(pre + Marker + tail, Marker) && IndexOf(pre + Marker + tail, Marker) == Some(|pre|)
  {
    var text := pre + Marker + tail;
    assert text[|pre|..|pre| + |Marker|] == Marker;
    ContainsAt(text, Marker, |pre|);
    NoMarkerBefore(pre, tail);
    assert StartsWith(text[|pre|..], Marker) by {
      assert text[|pre|..][..|Marker|] == text[|pre|..|pre| + |Marker|];
    }
    var i := IndexOf(text, Marker).value;
    assert StartsWith(text[i..], Marker) by {
      assert text[i..][..|Marker|] == text[i..i + |Marker|];
    }
  }

  /**
   * A script holding `appdata.wt = "w"` gives `w`, when nothing before the marker is a quote
   * and `w` has no quote and no space.
   */
  lemma {:induction false} WtBetweenMarkerAndQuote(pre: string, w: string, tail: string)
    requires forall j :: 0 <= j < |pre| ==> pre[j] != '"'
    requires forall j :: 0 <= j < |w| ==> w[j] != '"' && w[j] != ' '
    ensures Contains(pre + Marker + w + "\"" + tail, Marker)
    ensures ExtractWt(pre + Marker + w + "\"" + tail) == w
  {
    var text := pre + Marker + w + "\"" + tail;
    var rest := w + "\"" + tail;
    assert text == pre + Marker + rest;
    MarkerAt(pre, rest);
    assert AfterMarker(text) == rest;
    PieceOfToken(w, tail);
  }

  /** Before the next marker and then before the next quote, a token followed by a quote is the token. */
  lemma {:induction false} PieceOfToken(w: string, tail: string)
    requires forall j :: 0 <= j < |w| ==> w[j] != '"' && w[j] != ' '
    ensures BeforeQuote(BeforeMarker(w + "\"" + tail)) == w
  {
    var rest := w + "\"" + tail;
    NoMarkerInToken(w, tail);
    var piece := BeforeMarker(rest);
    assert |w| <= |piece| by {
      match IndexOf(rest, Marker)
      case None =>
      case Some(j) =>
        assert StartsWith(rest[j..], Marker) by {
          assert rest[j..][..|Marker|] == rest[j..j + |Marker|];
        }
    }
    assert piece[..|w|] == w;
    if |piece| == |w| {
      assert piece == w;
    } else {
      assert piece[|w|] == '"';
      assert IndexOfChar(piece, '"') == Some(|w|);
    }
  }

  // ---------------------------------------------------------------------------------------------
  // Messages, calls and the state

  // The fixed messages of the downloader.
  const CancelledText: string := "Download has been cancelled."
  const ShutDownText: string := "Executor shut down."
  const TokenUpdatedText: string := "Updated GoFile API token."
  const TokenRefusedText: string := "Failed to fetch GoFile API token."
  const ApiUnreachableText: string := "Failed to connect to GoFile API."
  const WtUpdatedText: string := "Updated GoFile WT."
  const WtMissingText: string := "Failed to extract WT from GoFile JS."
  const ScriptUnreachableText: string := "Failed to fetch GoFile JS."
  const CancelledMidFileText: string := "Download cancelled during file download."
  const BadPasswordText: string := "Invalid password."
  const ContentRefusedText: string := "Failed to fetch content from GoFile API."

  /** The messages of `download_file`, before translation; `Note` holds a fixed text. */
  datatype Message =
    | Note(text: string)
    | Exists(path: string)
    | Saved(path: string)
    | Failed(path: string, status: nat, reason: string, link: string)

  function MessageText(m: Message): string {
    match m
    case Note(text) => text
    case Exists(path) => "File already exists: " + path
    case Saved(path) => "Downloaded: " + path
    case Failed(path, status, reason, link) => "Failed to download " + path + ": " + HttpErrorMessage(status, reason, link)
  }

  datatype LogEntry = LogEntry(domain: string, message: Message)

  /** The line `log(message_key, url)` appends: the prefix and the translated message. */
  function LogLine(translations: map<string, string>, e: LogEntry): string {
    e.domain + ": " + Lookup(translations, MessageText(e.message))
  }

  /** The requests the downloader sends, with what each one carries. */
  datatype Call =
    | AccountPost
    | ScriptGet
    | ContentsGet(contentId: string, wt: Option<string>, token: Option<string>, passwordHash: string)
    | FileGet(link: string, token: Option<string>)

  /** The answer to the account POST: HTTP status, the `status` field and the token. */
  datatype TokenAnswer = TokenAnswer(status: int, apiStatus: string, token: string)

  /** The answer to the script request: HTTP status and text. */
  datatype ScriptAnswer = ScriptAnswer(status: int, text: string)

  /** The answer of the contents API: HTTP status, `status`, `data.passwordStatus` if present, and `data`. */
  datatype ContentsAnswer = ContentsAnswer(status: int, apiStatus: string, passwordStatus: Option<string>, content: Content)

  /** The site's answers: to the account request, to the script request, per content id, per file link. */
  datatype Api = Api(account: TokenAnswer, script: ScriptAnswer, contents: string -> ContentsAnswer, files: string -> Response)

  datatype GofileState = GofileState(
    cancelRequested: bool,
    token: Option<string>,
    wt: Option<string>,
    logMessages: seq<LogEntry>,
    fs: set<string>,
    calls: seq<Call>,
    progress: seq<Progress>)

  function WithLog(s: GofileState, m: Message, domain: string): GofileState {
    s.(logMessages := s.logMessages + [LogEntry(domain, m)])
  }

  /** `request_cancel`, with `shutdown_executor`'s message. */
  function CancelRequested(s: GofileState): GofileState {
    WithLog(WithLog(s.(cancelRequested := true), Note(CancelledText), "General"),
            Note(ShutDownText), "General")
  }

  /** `update_token()`. */
  function UpdatedToken(s: GofileState, a: TokenAnswer): GofileState {
    if !Unset(s.token) then s
    else
      var s1 := s.(calls := s.calls + [AccountPost]);
      if a.status == 200 then
        if a.apiStatus == "ok" then WithLog(s1.(token := Some(a.token)), Note(TokenUpdatedText), "General")
        else WithLog(s1, Note(TokenRefusedText), "General")
      else WithLog(s1, Note(ApiUnreachableText), "General")
  }

  /** `update_wt()`. */
  function UpdatedWt(s: GofileState, a: ScriptAnswer): GofileState {
    if !Unset(s.wt) then s
    else
      var s1 := s.(calls := s.calls + [ScriptGet]);
      if a.status == 200 then
        if Contains(a.text, Marker) then WithLog(s1.(wt := Some(ExtractWt(a.text))), Note(WtUpdatedText), "General")
        else WithLog(s1, Note(WtMissingText), "General")
      else WithLog(s1, Note(ScriptUnreachableText), "General")
  }

  /** The chunk loop of `download_file` over the rest of a body; false when it stopped on the cancel flag. */
  function Stream(s: GofileState, link: string, path: string, total: nat, body: seq<Event>, downloaded: nat): (GofileState, bool)
    decreases |body|
  {
    if body == [] then (s, true)
    else match body[0]
      case Cancel => Stream(CancelRequested(s), link, path, total, body[1..], downloaded)
      case Data(n) =>
        if s.cancelRequested then
          var s1 := WithLog(s, Note(CancelledMidFileText), LogDomain(Some(link)));
          (s1.(fs := s1.fs - {path}), false)
        else
          Stream(s.(progress := s.progress + [Progress(downloaded + n, total, "", path)]), link, path, total, body[1..], downloaded + n)
  }

  /** `download_file(link, path)`, `resp` being the answer to the file request. */
  function FileDownload(s: GofileState, link: string, path: string, resp: Response): GofileState {
    if path in s.fs then WithLog(s, Exists(path), "General")
    else
      var s1 := s.(calls := s.calls + [FileGet(link, s.token)]);
      if IsHttpError(resp.status) then WithLog(s1, Failed(path, resp.status as nat, resp.reason, link), "General")
      else
        var (s2, finished) := Stream(s1.(fs := s1.fs + {path}), link, path, resp.contentLength, resp.body, 0);
        if finished then WithLog(s2, Saved(path), "General") else s2
  }

  /** The downloads of a list of requests, one after the other. */
  function DownloadAll(s: GofileState, reqs: seq<Request>, files: string -> Response): GofileState
    decreases |reqs|
  {
    if reqs == [] then s else DownloadAll(FileDownload(s, reqs[0].link, reqs[0].path, files(reqs[0].link)), reqs[1..], files)
  }

  /** The hash sent for a password: the SHA-256 digest of a non-empty password, "" otherwise. */
  function PasswordHash(sha256: string -> string, password: Option<string>): string {
    if password.Some? && password.value != "" then sha256(password.value) else ""
  }

  /** Whether the contents API granted the content: HTTP 200, status "ok", and the password accepted or not asked for. */
  predicate Granted(a: ContentsAnswer) {
    a.status == 200 && a.apiStatus == "ok" && a.passwordStatus.GetOr("passwordOk") == "passwordOk"
  }

  /** The state once both tokens have been looked after. */
  function Prepared(s: GofileState, api: Api): GofileState {
    UpdatedWt(UpdatedToken(s, api.account), api.script)
  }

  /** `descargar_gofile(url, password)` into `folder`. */
  function Descargar(s: GofileState, url: string, password: Option<string>, sha256: string -> string,
                     sanitize: string -> string, folder: string, api: Api): GofileState
  {
    var id := ContentId(url);
    var s2 := Prepared(s, api);
    var s3 := s2.(calls := s2.calls + [ContentsGet(id, s2.wt, s2.token, PasswordHash(sha256, password))]);
    ContentsHandled(s3, api.contents(id), sanitize, folder, api.files)
  }

  /** What `descargar_gofile` does with the contents API's answer `a`. */
  function ContentsHandled(s: GofileState, a: ContentsAnswer, sanitize: string -> string, folder: string,
                           files: string -> Response): GofileState
  {
    if a.status == 200 then
      if a.apiStatus == "ok" then
        if a.passwordStatus.GetOr("passwordOk") == "passwordOk" then
          DownloadAll(s, ProcessContent(sanitize, a.content, folder), files)
        else WithLog(s, Note(BadPasswordText), "General")
      else WithLog(s, Note(ContentRefusedText), "General")
    else WithLog(s, Note(ApiUnreachableText), "General")
  }

  // ---------------------------------------------------------------------------------------------
  // Properties

  /** A token once obtained is kept: `update_token` then sends nothing and changes nothing. */
  lemma {:induction false} TokenCached(s: GofileState, a: TokenAnswer)
    requires !Unset(s.token)
    ensures UpdatedToken(s, a) == s
  {
  }

  /** Without a token, `update_token` sends one request, and stores the token exactly when the answer is 200 and "ok". */
  lemma {:induction false} TokenFetched(s: GofileState, a: TokenAnswer)
    requires Unset(s.token)
    ensures var r := UpdatedToken(s, a);
      && r.calls == s.calls + [AccountPost]
      && (a.status == 200 && a.apiStatus == "ok" ==> r.token == Some(a.token))
      && (!(a.status == 200 && a.apiStatus == "ok") ==> r.token == s.token)
      && |r.logMessages| == |s.logMessages| + 1
  {
  }

  lemma {:induction false} WtCached(s: GofileState, a: ScriptAnswer)
    requires !Unset(s.wt)
    ensures UpdatedWt(s, a) == s
  {
  }

  /** Without a wt, `update_wt` sends one request and stores a quote-free value exactly when the answer is 200 and holds the marker. */
  lemma {:induction false} WtFetched(s: GofileState, a: ScriptAnswer)
    requires Unset(s.wt)
    ensures var r := UpdatedWt(s, a);
      && r.calls == s.calls + [ScriptGet]
      && (a.status == 200 && Contains(a.text, Marker) ==>
            && r.wt.Some? && StartsWith(AfterMarker(a.text), r.wt.value)
            && forall j :: 0 <= j < |r.wt.value| ==> r.wt.value[j] != '"')
      && (!(a.status == 200 && Contains(a.text, Marker)) ==> r.wt == s.wt)
  {
  }

  /** The cancel flag, the tokens and the requests after a chunk loop; progress is reported per chunk. */
  lemma {:induction false} StreamFacts(s: GofileState, link: string, path: string, total: nat, body: seq<Event>, downloaded: nat)
    ensures var (r, finished) := Stream(s, link, path, total, body, downloaded);
      && r.calls == s.calls && r.token == s.token && r.wt == s.wt
      && (finished ==> r.fs == s.fs)
      && (!finished ==> r.fs == s.fs - {path})
      && ReportsSums(s.progress, r.progress, RunningSums(DataSizes(body), downloaded), total, "", path, finished)
      && (!s.cancelRequested && !HasCancel(body) ==> finished)
    decreases |body|
  {
    if body != [] {
      assert forall i :: 1 <= i < |body| ==> body[1..][i - 1] == body[i];
      match body[0]
      case Cancel =>
        StreamFacts(CancelRequested(s), link, path, total, body[1..], downloaded);
      case Data(n) =>
        if !s.cancelRequested {
          var s1 := s.(progress := s.progress + [Progress(downloaded + n, total, "", path)]);
          StreamFacts(s1, link, path, total, body[1..], downloaded + n);
          assert DataSizes(body) == [n] + DataSizes(body[1..]);
          var (r, finished) := Stream(s1, link, path, total, body[1..], downloaded + n);
          ReportsSumsCons(s.progress, r.progress, downloaded, n, DataSizes(body[1..]), total, "", path, finished);
        }
    }
  }

  /** A file already on disk is not requested; a new one is requested once and is on disk afterwards only if its stream ran to the end. */
  lemma {:induction false} FileDownloadFacts(s: GofileState, link: string, path: string, resp: Response)
    ensures var r := FileDownload(s, link, path, resp);
      && r.token == s.token && r.wt == s.wt
      && (path in s.fs ==> r.calls == s.calls && r.fs == s.fs)
      && (path !in s.fs ==> r.calls == s.calls + [FileGet(link, s.token)] && r.fs - {path} == s.fs)
      && (path !in s.fs && IsHttpError(resp.status) ==> r.fs == s.fs)
      && (path !in s.fs && !IsHttpError(resp.status) && !s.cancelRequested && !HasCancel(resp.body) ==> path in r.fs)
  {
    if path !in s.fs && !IsHttpError(resp.status) {
      var s1 := s.(calls := s.calls + [FileGet(link, s.token)]);
      StreamFacts(s1.(fs := s1.fs + {path}), link, path, resp.contentLength, resp.body, 0);
    }
  }

  /** A file not yet on disk is requested once, and only its own path may appear. */
  lemma {:induction false} FileDownloadNew(s: GofileState, link: string, path: string, resp: Response)
    requires path !in s.fs
    ensures var r := FileDownload(s, link, path, resp);
      r.calls == s.calls + [FileGet(link, s.token)] && r.fs - {path} == s.fs && r.token == s.token && r.wt == s.wt
  {
    FileDownloadFacts(s, link, path, resp);
  }

  /**
   * Cancel pressed before a chunk arrives: `request_cancel` logs its two messages, then the
   * chunk finds the flag set, the loop logs the mid-file note, removes the file and stops.
   */
  lemma {:induction false} CancelBeforeChunk(s: GofileState, link: string, path: string, total: nat, n: nat,
                                             rest: seq<Event>, downloaded: nat)
    ensures var (r, finished) := Stream(s, link, path, total, [Cancel, Data(n)] + rest, downloaded);
      && !finished && r.cancelRequested && r.fs == s.fs - {path} && r.progress == s.progress
      && r.logMessages == s.logMessages + [LogEntry("General", Note(CancelledText)), LogEntry("General", Note(ShutDownText)),
                                           LogEntry(LogDomain(Some(link)), Note(CancelledMidFileText))]
  {
    assert ([Cancel, Data(n)] + rest)[1..] == [Data(n)] + rest;
  }

  /** A cancel seen before a chunk arrives leaves no file behind. */
  lemma {:induction false} CancelRemovesPartialFile(s: GofileState, link: string, path: string, resp: Response)
    requires path !in s.fs && !IsHttpError(resp.status)
    requires s.cancelRequested && |resp.body| > 0 && resp.body[0].Data?
    ensures path !in FileDownload(s, link, path, resp).fs
  {
  }

  /**
   * The site's answers with every file body `Muted`: the answers a downloader gets when no
   * window can reach its cancel flag.
   */
  function MutedApi(api: Api): (r: Api)
    ensures r.account == api.account && r.script == api.script && r.contents == api.contents
    ensures forall l :: r.files(l) == Muted(api.files(l))
  {
    api.(files := l => Muted(api.files(l)))
  }

  /** A chunk loop over a body without a cancel leaves a clear cancel flag clear. */
  lemma {:induction false} StreamKeepsFlag(s: GofileState, link: string, path: string, total: nat, body: seq<Event>, downloaded: nat)
    requires !s.cancelRequested && !HasCancel(body)
    ensures !Stream(s, link, path, total, body, downloaded).0.cancelRequested
    decreases |body|
  {
    if body != [] {
      NoCancelInRest(body);
      assert body[0] != Cancel;
      var s1 := s.(progress := s.progress + [Progress(downloaded + body[0].size, total, "", path)]);
      StreamKeepsFlag(s1, link, path, total, body[1..], downloaded + body[0].size);
    }
  }

  lemma {:induction false} FileDownloadKeepsFlag(s: GofileState, link: string, path: string, resp: Response)
    requires !s.cancelRequested && !HasCancel(resp.body)
    ensures !FileDownload(s, link, path, resp).cancelRequested
  {
    if path !in s.fs && !IsHttpError(resp.status) {
      var s1 := s.(calls := s.calls + [FileGet(link, s.token)]);
      StreamKeepsFlag(s1.(fs := s1.fs + {path}), link, path, resp.contentLength, resp.body, 0);
    }
  }

  lemma {:induction false} DownloadAllKeepsFlag(s: GofileState, reqs: seq<Request>, files: string -> Response)
    requires !s.cancelRequested && forall l :: !HasCancel(files(l).body)
    ensures !DownloadAll(s, reqs, files).cancelRequested
    decreases |reqs|
  {
    if reqs != [] {
      FileDownloadKeepsFlag(s, reqs[0].link, reqs[0].path, files(reqs[0].link));
      DownloadAllKeepsFlag(FileDownload(s, reqs[0].link, reqs[0].path, files(reqs[0].link)), reqs[1..], files);
    }
  }

  /** With every file body muted, `descargar_gofile` never sets the cancel flag. */
  lemma {:induction false} DescargarKeepsFlag(s: GofileState, url: string, password: Option<string>, sha256: string -> string,
                                              sanitize: string -> string, folder: string, api: Api)
    requires !s.cancelRequested
    ensures !Descargar(s, url, password, sha256, sanitize, folder, MutedApi(api)).cancelRequested
  {
    var m := MutedApi(api);
    var id := ContentId(url);
    var s1 := UpdatedToken(s, m.account);
    assert !s1.cancelRequested;
    var s2 := UpdatedWt(s1, m.script);
    assert !s2.cancelRequested;
    var s3 := s2.(calls := s2.calls + [ContentsGet(id, s2.wt, s2.token, PasswordHash(sha256, password))]);
    var a := m.contents(id);
    assert Descargar(s, url, password, sha256, sanitize, folder, m) == ContentsHandled(s3, a, sanitize, folder, m.files);
    if Granted(a) {
      DownloadAllKeepsFlag(s3, ProcessContent(sanitize, a.content, folder), m.files);
    }
  }

  /** The file requests of a list of downloads, all sent with the same token. */
  function FileGets(reqs: seq<Request>, token: Option<string>): (r: seq<Call>)
    ensures |r| == |reqs| && forall i :: 0 <= i < |reqs| ==> r[i] == FileGet(reqs[i].link, token)
  {
    if reqs == [] then [] else [FileGet(reqs[0].link, token)] + FileGets(reqs[1..], token)
  }

  /**
   * Downloading a list of requests for distinct paths none of which is on disk sends one file
   * request per element, in order, and keeps the tokens.
   */
  lemma {:induction false} DownloadAllRequestsEach(s: GofileState, reqs: seq<Request>, files: string -> Response)
    requires DistinctNewPaths(reqs, s.fs)
    ensures var r := DownloadAll(s, reqs, files);
      r.calls == s.calls + FileGets(reqs, s.token) && r.token == s.token && r.wt == s.wt
    decreases |reqs|
  {
    if reqs != [] {
      var s1 := FileDownload(s, reqs[0].link, reqs[0].path, files(reqs[0].link));
      FileDownloadNew(s, reqs[0].link, reqs[0].path, files(reqs[0].link));
      NextPathsAbsent(s.fs, s1.fs, reqs);
      DownloadAllRequestsEach(s1, reqs[1..], files);
      var r1 := DownloadAll(s1, reqs[1..], files);
      assert DownloadAll(s, reqs, files) == r1;
      var rest := FileGets(reqs[1..], s.token);
      assert r1.calls == (s.calls + [FileGet(reqs[0].link, s.token)]) + rest;
      FileGetsCons(reqs, s.token);
      AppendAssoc(s.calls, [FileGet(reqs[0].link, s.token)], rest);
    }
  }

  /** Requests for distinct paths, none of them in `fs`. */
  predicate DistinctNewPaths(reqs: seq<Request>, fs: set<string>) {
    && (forall i :: 0 <= i < |reqs| ==> reqs[i].path !in fs)
    && (forall i, j :: 0 <= i < j < |reqs| ==> reqs[i].path != reqs[j].path)
  }

  /** After the first download only its own path can have appeared, so the later ones are still absent. */
  lemma {:induction false} NextPathsAbsent(fs: set<string>, fs1: set<string>, reqs: seq<Request>)
    requires reqs != [] && fs1 - {reqs[0].path} == fs
    requires DistinctNewPaths(reqs, fs)
    ensures DistinctNewPaths(reqs[1..], fs1)
  {
    forall i | 0 <= i < |reqs[1..]|
      ensures reqs[1..][i].path !in fs1
    {
      assert reqs[1..][i] == reqs[i + 1];
      assert reqs[i + 1].path != reqs[0].path;
    }
  }

  lemma {:induction false} AppendAssoc(a: seq<Call>, b: seq<Call>, c: seq<Call>)
    ensures (a + b) + c == a + (b + c)
  {
  }

  lemma {:induction false} FileGetsCons(reqs: seq<Request>, token: Option<string>)
    requires reqs != []
    ensures FileGets(reqs, token) == [FileGet(reqs[0].link, token)] + FileGets(reqs[1..], token)
  {
  }

  /** A run of downloads sends only file requests, after those already sent, and keeps both tokens. */
  lemma {:induction false} FileCallsOnly(s: GofileState, reqs: seq<Request>, files: string -> Response)
    ensures var r := DownloadAll(s, reqs, files);
      && |s.calls| <= |r.calls| && r.calls[..|s.calls|] == s.calls
      && (forall k :: |s.calls| <= k < |r.calls| ==> r.calls[k].FileGet?)
      && r.token == s.token && r.wt == s.wt
    decreases |reqs|
  {
    if reqs != [] {
      var s1 := FileDownload(s, reqs[0].link, reqs[0].path, files(reqs[0].link));
      FileDownloadFacts(s, reqs[0].link, reqs[0].path, files(reqs[0].link));
      FileCallsOnly(s1, reqs[1..], files);
      var r := DownloadAll(s, reqs, files);
      assert r.calls[..|s.calls|] == r.calls[..|s1.calls|][..|s.calls|];
    }
  }

  /** `update_token` sends the account request only without a token, and touches only the token, the log and the calls. */
  lemma {:induction false} UpdatedTokenFacts(s: GofileState, a: TokenAnswer)
    ensures var r := UpdatedToken(s, a);
      && r.calls == s.calls + (if Unset(s.token) then [AccountPost] else [])
      && r.fs == s.fs && r.progress == s.progress && r.cancelRequested == s.cancelRequested && r.wt == s.wt
      && (!Unset(s.token) ==> r.token == s.token)
  {
  }

  /** `update_wt` sends the script request only without a wt, and touches only the wt, the log and the calls. */
  lemma {:induction false} UpdatedWtFacts(s: GofileState, a: ScriptAnswer)
    ensures var r := UpdatedWt(s, a);
      && r.calls == s.calls + (if Unset(s.wt) then [ScriptGet] else [])
      && r.fs == s.fs && r.progress == s.progress && r.cancelRequested == s.cancelRequested && r.token == s.token
      && (!Unset(s.wt) ==> r.wt == s.wt)
  {
    if Unset(s.wt) && a.status == 200 && Contains(a.text, Marker) {
      var w := ExtractWt(a.text);
    }
  }

  /**
   * Looking after the tokens sends the account request only without a token and the script
   * request only without a wt, touches no file, and keeps a token or wt already held.
   */
  lemma {:induction false} PreparedCalls(s: GofileState, api: Api)
    ensures var p := Prepared(s, api);
      && p.calls == s.calls + (if Unset(s.token) then [AccountPost] else []) + (if Unset(s.wt) then [ScriptGet] else [])
      && p.fs == s.fs && p.progress == s.progress && p.cancelRequested == s.cancelRequested
      && (!Unset(s.token) ==> p.token == s.token)
      && (!Unset(s.wt) ==> p.wt == s.wt)
  {
    var t := UpdatedToken(s, api.account);
    UpdatedTokenFacts(s, api.account);
    UpdatedWtFacts(t, api.script);
  }

  /**
   * `descargar_gofile` asks for the content id of the URL with the tokens it holds by then and,
   * without a password, the empty hash; everything it sends after that is a file request.
   */
  lemma {:induction false} DescargarAsks(s: GofileState, url: string, password: Option<string>, sha256: string -> string,
                      sanitize: string -> string, folder: string, api: Api)
    ensures var r := Descargar(s, url, password, sha256, sanitize, folder, api);
      var p := Prepared(s, api);
      && |p.calls| < |r.calls|
      && r.calls[..|p.calls| + 1] == p.calls + [ContentsGet(ContentId(url), p.wt, p.token, PasswordHash(sha256, password))]
      && (password.None? ==> r.calls[|p.calls|].passwordHash == "")
      && (forall k :: |p.calls| < k < |r.calls| ==> r.calls[k].FileGet?)
      && r.token == p.token && r.wt == p.wt
  {
    var p := Prepared(s, api);
    var id := ContentId(url);
    var c := ContentsGet(id, p.wt, p.token, PasswordHash(sha256, password));
    var s3 := p.(calls := p.calls + [c]);
    var r := ContentsHandled(s3, api.contents(id), sanitize, folder, api.files);
    ContentsHandledCalls(s3, api.contents(id), sanitize, folder, api.files);
    assert r.calls[..|p.calls| + 1] == s3.calls;
    assert r.calls[|p.calls|] == s3.calls[|p.calls|];
  }

  /** Whatever the contents API answers, `descargar_gofile` sends only file requests after it. */
  lemma {:induction false} ContentsHandledCalls(s: GofileState, a: ContentsAnswer, sanitize: string -> string, folder: string,
                                                files: string -> Response)
    ensures var r := ContentsHandled(s, a, sanitize, folder, files);
      && |s.calls| <= |r.calls| && r.calls[..|s.calls|] == s.calls
      && (forall k :: |s.calls| <= k < |r.calls| ==> r.calls[k].FileGet?)
      && r.token == s.token && r.wt == s.wt
  {
    if Granted(a) {
      FileCallsOnly(s, ProcessContent(sanitize, a.content, folder), files);
    }
  }

  /** Content not granted (a failed request, a status other than "ok", a wrong password) downloads nothing. */
  lemma {:induction false} NotGrantedDownloadsNothing(s: GofileState, url: string, password: Option<string>, sha256: string -> string,
                                   sanitize: string -> string, folder: string, api: Api)
    requires !Granted(api.contents(ContentId(url)))
    ensures var r := Descargar(s, url, password, sha256, sanitize, folder, api);
      var p := Prepared(s, api);
      && r.fs == s.fs && r.progress == s.progress
      && r.calls == p.calls + [ContentsGet(ContentId(url), p.wt, p.token, PasswordHash(sha256, password))]
  {
    PreparedCalls(s, api);
  }

  /**
   * Granted content whose files land at distinct new paths is downloaded file by file: after
   * the contents request comes one file request per file of the tree, in the tree's order.
   */
  lemma {:induction false} GrantedDownloadsEachFile(s: GofileState, url: string, password: Option<string>, sha256: string -> string,
                                 sanitize: string -> string, folder: string, api: Api)
    requires Granted(api.contents(ContentId(url)))
    requires DistinctNewPaths(ProcessContent(sanitize, api.contents(ContentId(url)).content, folder), s.fs)
    ensures var p := Prepared(s, api);
      var a := api.contents(ContentId(url));
      Descargar(s, url, password, sha256, sanitize, folder, api).calls
        == p.calls + [ContentsGet(ContentId(url), p.wt, p.token, PasswordHash(sha256, password))]
           + FileGets(RequestsFor(sanitize, folder, Leaves(a.content)), p.token)
  {
    var p := Prepared(s, api);
    var a := api.contents(ContentId(url));
    var reqs := ProcessContent(sanitize, a.content, folder);
    PreparedCalls(s, api);
    var s3 := p.(calls := p.calls + [ContentsGet(ContentId(url), p.wt, p.token, PasswordHash(sha256, password))]);
    assert s3.fs == s.fs;
    DownloadAllRequestsEach(s3, reqs, api.files);
    ProcessContentIsLeaves(sanitize, a.content, folder);
  }

  // ---------------------------------------------------------------------------------------------
  // The downloader object

  class GofileDownloader {
    const translations: map<string, string>
    const downloadFolder: string
    var cancelRequested: bool
    var token: Option<string>
    var wt: Option<string>
    var logMessages: seq<LogEntry>
    var fs: set<string>
    var calls: seq<Call>
    var progress: seq<Progress>

    function Snapshot(): GofileState
      reads this
    {
      GofileState(cancelRequested, token, wt, logMessages, fs, calls, progress)
    }

    /** The log buffer as the strings `log` appended. */
    function LogText(): (r: seq<string>)
      reads this
      ensures |r| == |logMessages| && forall i :: 0 <= i < |r| ==> r[i] == LogLine(translations, logMessages[i])
    {
      seq(|logMessages|, i requires 0 <= i < |logMessages| reads this => LogLine(translations, logMessages[i]))
    }

    /** A new downloader saving under `downloadFolder`, over the files `fs` already on disk. */
    constructor(translations: map<string, string>, downloadFolder: string, fs: set<string>)
      ensures this.translations == translations && this.downloadFolder == downloadFolder
      ensures Snapshot() == GofileState(false, None, None, [], fs, [], [])
    {
      this.translations := translations;
      this.downloadFolder := downloadFolder;
      cancelRequested := false;
      token := None;
      wt := None;
      logMessages := [];
      this.fs := fs;
      calls := [];
      progress := [];
    }

    method Log(m: Message, url: Option<string>)
      modifies this
      ensures Snapshot() == WithLog(old(Snapshot()), m, LogDomain(url))
    {
      logMessages := logMessages + [LogEntry(LogDomain(url), m)];
    }

    method RequestCancel()
      modifies this
      ensures Snapshot() == CancelRequested(old(Snapshot()))
    {
      cancelRequested := true;
      Log(Note(CancelledText), None);
      Log(Note(ShutDownText), None);
    }

    /** `update_token()`; `a` is the account server's answer, used only when a request is sent. */
    method UpdateToken(a: TokenAnswer)
      modifies this
      ensures Snapshot() == UpdatedToken(old(Snapshot()), a)
    {
      if Unset(token) {
        calls := calls + [AccountPost];
        if a.status == 200 {
          if a.apiStatus == "ok" {
            token := Some(a.token);
            Log(Note(TokenUpdatedText), None);
          } else {
            Log(Note(TokenRefusedText), None);
          }
        } else {
          Log(Note(ApiUnreachableText), None);
        }
      }
    }

    /** `update_wt()`; `a` is the answer to the script request. */
    method UpdateWt(a: ScriptAnswer)
      modifies this
      ensures Snapshot() == UpdatedWt(old(Snapshot()), a)
    {
      if Unset(wt) {
        calls := calls + [ScriptGet];
        if a.status == 200 {
          if Contains(a.text, Marker) {
            wt := Some(ExtractWt(a.text));
            Log(Note(WtUpdatedText), None);
          } else {
            Log(Note(WtMissingText), None);
          }
        } else {
          Log(Note(ScriptUnreachableText), None);
        }
      }
    }

    /** The chunk loop of `download_file`. */
    method StreamChunks(link: string, path: string, total: nat, body: seq<Event>) returns (finished: bool)
      modifies this
      ensures (Snapshot(), finished) == Stream(old(Snapshot()), link, path, total, body, 0)
    {
      ghost var goal := Stream(Snapshot(), link, path, total, body, 0);
      var downloaded: nat := 0;
      for i := 0 to |body|
        invariant Stream(Snapshot(), link, path, total, body[i..], downloaded) == goal
      {
        assert body[i..][1..] == body[i + 1..];
        match body[i]
        case Cancel =>
          RequestCancel();
        case Data(n) =>
          if cancelRequested {
            Log(Note(CancelledMidFileText), Some(link));
            fs := fs - {path};
            return false;
          }
          downloaded := downloaded + n;
          progress := progress + [Progress(downloaded, total, "", path)];
      }
      assert body[|body|..] == [];
      return true;
    }

    /** `download_file(link, path)`; `resp` is the answer to the file request. */
    method DownloadFile(link: string, path: string, resp: Response)
      modifies this
      ensures Snapshot() == FileDownload(old(Snapshot()), link, path, resp)
    {
      if path in fs {
        Log(Exists(path), None);
        return;
      }
      calls := calls + [FileGet(link, token)];
      if IsHttpError(resp.status) {
        Log(Failed(path, resp.status as nat, resp.reason, link), None);
        return;
      }
      fs := fs + {path};
      var finished := StreamChunks(link, path, resp.contentLength, resp.body);
      if finished {
        Log(Saved(path), None);
      }
    }

    /** The downloads `_process_content` starts, one after the other. */
    method DownloadRequests(reqs: seq<Request>, files: string -> Response)
      modifies this
      ensures Snapshot() == DownloadAll(old(Snapshot()), reqs, files)
    {
      ghost var goal := DownloadAll(Snapshot(), reqs, files);
      for i := 0 to |reqs|
        invariant DownloadAll(Snapshot(), reqs[i..], files) == goal
      {
        assert reqs[i..][1..] == reqs[i + 1..];
        DownloadFile(reqs[i].link, reqs[i].path, files(reqs[i].link));
      }
      assert reqs[|reqs|..] == [];
    }

    /** The branches of `descargar_gofile` on the contents API's answer. */
    method HandleContents(a: ContentsAnswer, sanitize: string -> string, files: string -> Response)
      modifies this
      ensures Snapshot() == ContentsHandled(old(Snapshot()), a, sanitize, downloadFolder, files)
    {
      if a.status == 200 {
        if a.apiStatus == "ok" {
          if a.passwordStatus.GetOr("passwordOk") == "passwordOk" {
            DownloadRequests(ProcessContent(sanitize, a.content, downloadFolder), files);
          } else {
            Log(Note(BadPasswordText), None);
          }
        } else {
          Log(Note(ContentRefusedText), None);
        }
      } else {
        Log(Note(ApiUnreachableText), None);
      }
    }

    /** `descargar_gofile(url, password)`. */
    method DescargarGofile(url: string, password: Option<string>, sha256: string -> string,
                           sanitize: string -> string, api: Api)
      modifies this
      ensures Snapshot() == Descargar(old(Snapshot()), url, password, sha256, sanitize, downloadFolder, api)
    {
      var contentId := ContentId(url);
      UpdateToken(api.account);
      UpdateWt(api.script);
      var hash := PasswordHash(sha256, password);
      calls := calls + [ContentsGet(contentId, wt, token, hash)];
      HandleContents(api.contents(contentId), sanitize, api.files);
    }
  }
}
