/**
 * The Bunkr downloader: its log buffer, the names it gives folders, and `download_file`, which
 * skips files already on disk, retries a request up to three times (waiting 1, 2, 4 seconds
 * after each "429 Too Many Requests" and 3 seconds after any other error that leaves an attempt
 * over), streams the body chunk by chunk with progress reports, and removes the partial file
 * when the user cancels.
 *
 * The downloader's state is the class `BunkrDownloader`; `BunkrState` is a snapshot of it, and
 * the functions on snapshots (`Download`, `Attempts`, `Stream`) specify what the methods do.
 */
module Bunkr {
  import opened Wrappers
  import opened Text
  import opened Urls
  import opened Translation
  import opened Net
  import opened Naming

  /** `get_root_domain(url)`: the scheme and host of a URL, as `scheme://netloc`. */
  function GetRootDomain(url: string): string {
    var u := UrlSplit(url);
    u.scheme + "://" + u.netloc
  }

  lemma {:induction false} SplitOfRoot(u: SplitUrl)
    requires WellFormed(u) && u.scheme != "" && u.netloc != ""
    ensures UrlSplit(u.scheme + "://" + u.netloc) == SplitUrl(u.scheme, u.netloc, "", "", "")
  {
    var root := SplitUrl(u.scheme, u.netloc, "", "", "");
    assert UrlUnsplit(root) == u.scheme + ":" + ("//" + u.netloc + "");
    assert u.scheme + ":" + ("//" + u.netloc + "") == u.scheme + "://" + u.netloc;
    UrlSplitOfUnsplit(root);
  }

  /** The root domain of a URL with a scheme and a host is a URL with that scheme and host and nothing else. */
  lemma {:induction false} RootDomainKeepsSchemeAndHost(url: string)
    requires UrlSplit(url).scheme != "" && UrlSplit(url).netloc != ""
    ensures UrlSplit(GetRootDomain(url)) == SplitUrl(UrlSplit(url).scheme, UrlSplit(url).netloc, "", "", "")
  {
    UrlSplitWellFormed(url);
    SplitOfRoot(UrlSplit(url));
  }

  // The fixed messages of the downloader.
  const CancelledText: string := "Download has been cancelled."
  const ShutDownText: string := "Executor shut down."
  const CancelledMidFileText: string := "Descarga cancelada durante la descarga del archivo."
  const FileSavedText: string := "Archivo descargado"
  const CancelledBeforeText: string := "Descarga cancelada"

  /** The messages `download_file` and `request_cancel` log, before translation. */
  datatype Message =
    | Note(text: string)
    | Skipped(path: string)
    | Attempting(url: string, attempt: nat)
    | RateLimited(delay: nat)
    | AttemptError(url: string, status: nat, reason: string, attempt: nat)

  /** The text of a message, as the f-strings of `download_file` build it. */
  function MessageText(m: Message): string {
    match m
    case Note(text) => text
    case Skipped(path) => "El archivo ya existe, omitiendo: " + path
    case Attempting(url, attempt) =>
      "Intentando descargar " + url + " (Intento " + NatToString(attempt + 1) + "/3)"
    case RateLimited(delay) =>
      "Límite de tasa excedido. Reintentando después de " + NatToString(delay) + " segundos."
    case AttemptError(url, status, reason, attempt) =>
      "Error al descargar de " + url + ": " + HttpErrorMessage(status, reason, url)
      + ". Intento " + NatToString(attempt + 1) + " de 3"
  }

  /** One entry of the log buffer: the prefix and the message. */
  datatype LogEntry = LogEntry(domain: string, message: Message)

  /** The line `log` appends for an entry: the prefix and the translated message. */
  function LogLine(translations: map<string, string>, e: LogEntry): string {
    e.domain + ": " + Lookup(translations, MessageText(e.message))
  }

  /** The log buffer as text. */
  function LogLines(translations: map<string, string>, entries: seq<LogEntry>): (r: seq<string>)
    ensures |r| == |entries| && forall i :: 0 <= i < |entries| ==> r[i] == LogLine(translations, entries[i])
  {
    seq(|entries|, i requires 0 <= i < |entries| => LogLine(translations, entries[i]))
  }

  /** A `time.sleep`: the back-off after a 429, or the fixed pause after another error. */
  datatype Wait = Backoff(seconds: nat) | Pause(seconds: nat)

  /**
   * A snapshot of the downloader: the cancel flag, the file counters, the log buffer, the
   * messages sent straight to the window, the progress reports (per file and global), the
   * files on disk, the URLs requested and the waits, each in order.
   */
  datatype BunkrState = BunkrState(
    cancelRequested: bool,
    totalFiles: nat,
    completedFiles: nat,
    logMessages: seq<LogEntry>,
    callbackLog: seq<string>,
    progress: seq<Progress>,
    globalProgress: seq<(nat, nat)>,
    fs: set<string>,
    requested: seq<string>,
    waits: seq<Wait>)

  /** `log(message, url)` on a snapshot, `domain` being `LogDomain(url)`. */
  function WithLog(s: BunkrState, message: Message, domain: string): BunkrState {
    s.(logMessages := s.logMessages + [LogEntry(domain, message)])
  }

  /** `request_cancel`: the flag is set and two messages are logged. */
  function CancelRequested(s: BunkrState): BunkrState {
    var s1 := WithLog(s.(cancelRequested := true), Note(CancelledText), "General");
    WithLog(s1, Note(ShutDownText), "General")
  }

  /**
   * The chunk loop over the rest of a body, `downloaded` bytes in: the new state and whether the
   * loop ran to the end (false when a chunk found the cancel flag set and the file was removed).
   */
  function Stream(s: BunkrState, domain: string, path: string, fileId: string,
                  total: nat, body: seq<Event>, downloaded: nat): (BunkrState, bool)
    decreases |body|
  {
    if body == [] then (s, true)
    else match body[0]
      case Cancel =>
        Stream(CancelRequested(s), domain, path, fileId, total, body[1..], downloaded)
      case Data(n) =>
        if s.cancelRequested then
          var s1 := WithLog(s, Note(CancelledMidFileText), domain);
          (s1.(fs := s1.fs - {path}), false)
        else
          var s1 := s.(progress := s.progress + [Progress(downloaded + n, total, fileId, path)]);
          Stream(s1, domain, path, fileId, total, body[1..], downloaded + n)
  }

  /** After a finished stream: logged, announced to the window, counted, global progress reported. */
  function Completed(s: BunkrState, domain: string, fileName: string): BunkrState {
    var s1 := WithLog(s, Note(FileSavedText), domain);
    var c := s1.completedFiles + 1;
    s1.(callbackLog := s1.callbackLog + ["Descarga completada: " + fileName],
        completedFiles := c,
        globalProgress := s1.globalProgress + [(c, s1.totalFiles)])
  }

  /**
   * The `except` branch of attempt `attempt`: after a 429, wait the current delay and double it;
   * after another error, wait 3 seconds unless this was the last attempt.
   */
  function AfterError(s: BunkrState, url: string, domain: string, r: Response,
                      attempt: nat, delay: nat): (BunkrState, nat)
    requires IsHttpError(r.status)
  {
    if r.status == 429 then
      var s1 := WithLog(s, RateLimited(delay), "General");
      (s1.(waits := s1.waits + [Backoff(delay)]), delay * 2)
    else
      var s1 := WithLog(s, AttemptError(url, r.status as nat, r.reason, attempt), domain);
      (if attempt < 2 then s1.(waits := s1.waits + [Pause(3)]) else s1, delay)
  }

  /** The retry loop from attempt `attempt` on, with the current back-off `delay`; `net(k)` answers attempt `k`. */
  function Attempts(s: BunkrState, url: string, domain: string, path: string, fileName: string,
                    fileId: string, net: nat -> Response, attempt: nat, delay: nat): BunkrState
    decreases 3 - attempt
  {
    if attempt >= 3 then s
    else
      var s1 := WithLog(s, Attempting(url, attempt), "General");
      var s2 := s1.(requested := s1.requested + [url]);
      var r := net(attempt);
      if IsHttpError(r.status) then
        var (s3, delay') := AfterError(s2, url, domain, r, attempt, delay);
        Attempts(s3, url, domain, path, fileName, fileId, net, attempt + 1, delay')
      else
        var (s3, finished) := Stream(s2.(fs := s2.fs + {path}), domain, path, fileId, r.contentLength, r.body, 0);
        if finished then Completed(s3, domain, fileName) else s3
  }

  /** The name `download_file` saves a URL under: the last segment of the path `urlparse` gives. */
  function FileNameOf(url: string): (r: string)
    ensures NoSlash(r)
  {
    Basename(UrlParse(url).path)
  }

  /** The parameters after a ';' in the last segment are not part of the saved name. */
  lemma {:induction false} FileNameDropsParams(url: string, dir: string, name: string, params: string)
    requires UrlSplit(url).scheme in UsesParams
    requires UrlSplit(url).path == dir + "/" + name + ";" + params
    requires NoSlash(name) && NoSlash(params) && forall j :: 0 <= j < |name| ==> name[j] != ';'
    ensures FileNameOf(url) == name
  {
    LastSegmentOf(dir, name);
    UrlParseCutsParams(url, dir + "/" + name, params);
  }

  /** `dir/name`, for a name without '/' or ';', has no parameters and the base name `name`. */
  lemma {:induction false} LastSegmentOf(dir: string, name: string)
    requires NoSlash(name) && forall j :: 0 <= j < |name| ==> name[j] != ';'
    ensures NoParams(dir + "/" + name) && Basename(dir + "/" + name) == name
  {
    var a := dir + "/" + name;
    LastIndexOfCharAppend(dir + "/", name, '/');
    assert LastIndexOfChar(dir + "/", '/') == Some(|dir|);
    assert LastSegmentStart(a) == |dir|;
    assert forall j :: |dir| < j < |a| ==> a[j] == name[j - |dir| - 1];
    assert LastIndexOfChar(a, '/') == Some(|dir|);
    assert a[|dir| + 1..] == name;
  }

  /** `download_file(url, folder, file_id)` on a snapshot. */
  function Download(s: BunkrState, url: string, folder: string,
                    fileId: string, net: nat -> Response): BunkrState
  {
    var domain := LogDomain(Some(url));
    if s.cancelRequested then WithLog(s, Note(CancelledBeforeText), domain)
    else
      var fileName := FileNameOf(url);
      var path := PathJoin(folder, fileName);
      if path in s.fs then
        var s1 := WithLog(s, Skipped(path), "General");
        var c := s1.completedFiles + 1;
        s1.(completedFiles := c, globalProgress := s1.globalProgress + [(c, s1.totalFiles)])
      else Attempts(s, url, domain, path, fileName, fileId, net, 0, 1)
  }

  // ---------------------------------------------------------------------------------------------
  // Properties of the specification

  /** Cancelled before it starts: nothing is requested, counted, written or reported; one line is logged. */
  lemma {:induction false} CancelledAtEntry(s: BunkrState, url: string, folder: string,
                         fileId: string, net: nat -> Response)
    requires s.cancelRequested
    ensures Download(s, url, folder, fileId, net)
            == s.(logMessages := s.logMessages + [LogEntry(LogDomain(Some(url)), Note(CancelledBeforeText))])
  {
  }

  /** A file already on disk is not requested again but counts as completed, once. */
  lemma {:induction false} ExistingFileSkipped(s: BunkrState, url: string, folder: string,
                            fileId: string, net: nat -> Response)
    requires !s.cancelRequested && PathJoin(folder, FileNameOf(url)) in s.fs
    ensures var r := Download(s, url, folder, fileId, net);
      && r.requested == s.requested && r.fs == s.fs && r.progress == s.progress && r.waits == s.waits
      && r.completedFiles == s.completedFiles + 1
      && r.globalProgress == s.globalProgress + [(s.completedFiles + 1, s.totalFiles)]
  {
    var s1 := WithLog(s, Skipped(PathJoin(folder, FileNameOf(url))), "General");
    assert Download(s, url, folder, fileId, net)
           == s1.(completedFiles := s1.completedFiles + 1, globalProgress := s1.globalProgress + [(s1.completedFiles + 1, s1.totalFiles)]);
  }

  /** `url` repeated `k` times. */
  function Repeat(url: string, k: nat): (r: seq<string>)
    ensures |r| == k && forall i :: 0 <= i < k ==> r[i] == url
  {
    if k == 0 then [] else [url] + Repeat(url, k - 1)
  }

  /**
   * The chunk loop reports, for each chunk it writes, the running total of the chunk sizes, and
   * writes every chunk when it runs to the end; a stopped loop has removed the file. It makes no
   * request, counts nothing and does not wait.
   */
  lemma {:induction false} StreamReports(s: BunkrState, domain: string, path: string,
                                         fileId: string, total: nat, body: seq<Event>, downloaded: nat)
    ensures var (r, finished) := Stream(s, domain, path, fileId, total, body, downloaded);
      && ReportsSums(s.progress, r.progress, RunningSums(DataSizes(body), downloaded), total, fileId, path, finished)
      && (finished ==> r.fs == s.fs)
      && (!finished ==> r.fs == s.fs - {path})
      && (!s.cancelRequested && !HasCancel(body) ==> finished)
      && r.requested == s.requested && r.waits == s.waits && r.completedFiles == s.completedFiles
      && r.totalFiles == s.totalFiles && r.callbackLog == s.callbackLog && r.globalProgress == s.globalProgress
  {
    StreamOutcomeHolds(s, domain, path, fileId, total, body, downloaded);
  }

  /** What `StreamReports` states of a chunk loop from `s` over `body` that ended in `r`. */
  predicate StreamOutcome(s: BunkrState, r: BunkrState, finished: bool, path: string, fileId: string,
                          total: nat, body: seq<Event>, downloaded: nat)
  {
    && ReportsSums(s.progress, r.progress, RunningSums(DataSizes(body), downloaded), total, fileId, path, finished)
    && (finished ==> r.fs == s.fs)
    && (!finished ==> r.fs == s.fs - {path})
    && (!s.cancelRequested && !HasCancel(body) ==> finished)
    && r.requested == s.requested && r.waits == s.waits && r.completedFiles == s.completedFiles
    && r.totalFiles == s.totalFiles && r.callbackLog == s.callbackLog && r.globalProgress == s.globalProgress
  }

  lemma {:induction false} StreamOutcomeHolds(s: BunkrState, domain: string, path: string,
                                              fileId: string, total: nat, body: seq<Event>, downloaded: nat)
    ensures var (r, finished) := Stream(s, domain, path, fileId, total, body, downloaded);
      StreamOutcome(s, r, finished, path, fileId, total, body, downloaded)
    decreases |body|
  {
    if body != [] {
      match body[0]
      case Cancel =>
        var s1 := CancelRequested(s);
        StreamOutcomeHolds(s1, domain, path, fileId, total, body[1..], downloaded);
        var (r, finished) := Stream(s1, domain, path, fileId, total, body[1..], downloaded);
        OutcomeAfterCancel(s, s1, r, finished, path, fileId, total, body, downloaded);
      case Data(n) =>
        if !s.cancelRequested {
          var s1 := s.(progress := s.progress + [Progress(downloaded + n, total, fileId, path)]);
          StreamOutcomeHolds(s1, domain, path, fileId, total, body[1..], downloaded + n);
          var (r, finished) := Stream(s1, domain, path, fileId, total, body[1..], downloaded + n);
          OutcomeAfterData(s, s1, r, finished, path, fileId, total, body, downloaded, n);
        } else {
          var s1 := WithLog(s, Note(CancelledMidFileText), domain);
          OutcomeStopped(s, s1.(fs := s1.fs - {path}), path, fileId, total, body, downloaded);
        }
    }
  }

  lemma {:induction false} OutcomeAfterCancel(s: BunkrState, s1: BunkrState, r: BunkrState, finished: bool, path: string,
                                              fileId: string, total: nat, body: seq<Event>, downloaded: nat)
    requires body != [] && body[0] == Cancel && s1 == CancelRequested(s)
    requires StreamOutcome(s1, r, finished, path, fileId, total, body[1..], downloaded)
    ensures StreamOutcome(s, r, finished, path, fileId, total, body, downloaded)
  {
    assert HasCancel(body) by { assert body[0] == Cancel; }
  }

  lemma {:induction false} OutcomeAfterData(s: BunkrState, s1: BunkrState, r: BunkrState, finished: bool, path: string,
                                            fileId: string, total: nat, body: seq<Event>, downloaded: nat, n: nat)
    requires body != [] && body[0] == Data(n)
    requires s1 == s.(progress := s.progress + [Progress(downloaded + n, total, fileId, path)])
    requires StreamOutcome(s1, r, finished, path, fileId, total, body[1..], downloaded + n)
    ensures StreamOutcome(s, r, finished, path, fileId, total, body, downloaded)
  {
    assert DataSizes(body) == [n] + DataSizes(body[1..]);
    ReportsSumsCons(s.progress, r.progress, downloaded, n, DataSizes(body[1..]), total, fileId, path, finished);
    NoCancelInRest(body);
  }

  lemma {:induction false} OutcomeStopped(s: BunkrState, r: BunkrState, path: string,
                                          fileId: string, total: nat, body: seq<Event>, downloaded: nat)
    requires s.cancelRequested && r == s.(logMessages := r.logMessages, fs := s.fs - {path})
    ensures StreamOutcome(s, r, false, path, fileId, total, body, downloaded)
  {
  }

  /**
   * Cancel pressed before a chunk arrives: `request_cancel` logs its two messages, then the
   * chunk finds the flag set, the loop logs the mid-file note, removes the file and stops.
   */
  lemma {:induction false} CancelBeforeChunk(s: BunkrState, domain: string, path: string, fileId: string,
                                             total: nat, n: nat, rest: seq<Event>, downloaded: nat)
    ensures var (r, finished) := Stream(s, domain, path, fileId, total, [Cancel, Data(n)] + rest, downloaded);
      && !finished && r.cancelRequested && r.fs == s.fs - {path} && r.progress == s.progress
      && r.logMessages == s.logMessages + [LogEntry("General", Note(CancelledText)), LogEntry("General", Note(ShutDownText)),
                                           LogEntry(domain, Note(CancelledMidFileText))]
  {
    assert ([Cancel, Data(n)] + rest)[1..] == [Data(n)] + rest;
  }

  /** The reported byte counts of a chunk loop never decrease. */
  lemma {:induction false} StreamProgressMonotone(s: BunkrState, domain: string, path: string,
                               fileId: string, total: nat, body: seq<Event>, downloaded: nat)
    ensures var r := Stream(s, domain, path, fileId, total, body, downloaded).0;
      forall i, j :: |s.progress| <= i <= j < |r.progress| ==> r.progress[i].downloaded <= r.progress[j].downloaded
  {
    StreamReports(s, domain, path, fileId, total, body, downloaded);
    RunningSumsMonotone(DataSizes(body), downloaded);
  }

  function BackoffSeconds(ws: seq<Wait>): seq<nat> {
    if ws == [] then []
    else match ws[0]
      case Backoff(d) => [d] + BackoffSeconds(ws[1..])
      case Pause(_) => BackoffSeconds(ws[1..])
  }

  lemma {:induction false} BackoffSecondsAppend(a: seq<Wait>, b: seq<Wait>)
    ensures BackoffSeconds(a + b) == BackoffSeconds(a) + BackoffSeconds(b)
  {
    if a == [] {
      assert a + b == b;
    } else {
      assert (a + b)[0] == a[0];
      assert (a + b)[1..] == a[1..] + b;
      BackoffSecondsAppend(a[1..], b);
    }
  }

  /** `k` delays starting at `d`, each twice the one before. */
  function Doubling(d: nat, k: nat): (r: seq<nat>)
    ensures |r| == k
    decreases k
  {
    if k == 0 then [] else [d] + Doubling(2 * d, k - 1)
  }

  /** Doubling delays that start at 1 or more strictly increase. */
  lemma {:induction false} DoublingIncreases(d: nat, k: nat)
    requires d >= 1
    ensures forall i, j :: 0 <= i < j < k ==> Doubling(d, k)[i] < Doubling(d, k)[j]
    ensures forall i :: 0 <= i < k ==> Doubling(d, k)[i] >= d
    decreases k
  {
    if k > 0 {
      DoublingIncreases(2 * d, k - 1);
      assert forall i :: 1 <= i < k ==> Doubling(d, k)[i] == Doubling(2 * d, k - 1)[i - 1];
    }
  }

  /** The snapshot `Attempts` continues from after a failed attempt, and the next delay. */
  lemma {:induction false} AfterErrorWaits(s: BunkrState, url: string, domain: string, r: Response,
                        attempt: nat, delay: nat)
    requires IsHttpError(r.status)
    ensures var (s1, d) := AfterError(s, url, domain, r, attempt, delay);
      && s1.requested == s.requested && s1.fs == s.fs && s1.progress == s.progress
      && s1.completedFiles == s.completedFiles
      && |s.waits| <= |s1.waits| <= |s.waits| + 1 && s1.waits[..|s.waits|] == s.waits
      && (r.status == 429 ==> s1.waits[|s.waits|..] == [Backoff(delay)] && d == 2 * delay)
      && (r.status != 429 ==> d == delay && s1.waits[|s.waits|..] == (if attempt < 2 then [Pause(3)] else []))
  {
  }

  /** The state attempt `attempt` starts from: the attempt is logged and its request recorded. */
  function Requested(s: BunkrState, url: string, attempt: nat): BunkrState {
    var s1 := WithLog(s, Attempting(url, attempt), "General");
    s1.(requested := s1.requested + [url])
  }

  /** A failed attempt continues with the next one from the state `AfterError` leaves. */
  lemma {:induction false} AttemptFails(s: BunkrState, url: string, domain: string, path: string,
                     fileName: string, fileId: string, net: nat -> Response, attempt: nat, delay: nat)
    requires attempt < 3 && IsHttpError(net(attempt).status)
    ensures var sd := AfterError(Requested(s, url, attempt), url, domain, net(attempt), attempt, delay);
      Attempts(s, url, domain, path, fileName, fileId, net, attempt, delay)
      == Attempts(sd.0, url, domain, path, fileName, fileId, net, attempt + 1, sd.1)
  {
  }

  /** A successful attempt streams the body into a new file and ends the loop. */
  lemma {:induction false} AttemptStreams(s: BunkrState, url: string, domain: string, path: string,
                       fileName: string, fileId: string, net: nat -> Response, attempt: nat, delay: nat)
    requires attempt < 3 && !IsHttpError(net(attempt).status)
    ensures var s2 := Requested(s, url, attempt);
      var sf := Stream(s2.(fs := s2.fs + {path}), domain, path, fileId, net(attempt).contentLength, net(attempt).body, 0);
      Attempts(s, url, domain, path, fileName, fileId, net, attempt, delay)
      == if sf.1 then Completed(sf.0, domain, fileName) else sf.0
  {
  }

  /** The retry loop from `attempt` on makes at most `3 - attempt` requests, all for `url`. */
  lemma {:induction false} AttemptsRequests(s: BunkrState, url: string, domain: string, path: string, fileName: string,
                                            fileId: string, net: nat -> Response, attempt: nat, delay: nat)
    ensures var r := Attempts(s, url, domain, path, fileName, fileId, net, attempt, delay);
      && |s.requested| <= |r.requested| <= |s.requested| + (if attempt < 3 then 3 - attempt else 0)
      && r.requested == s.requested + Repeat(url, |r.requested| - |s.requested|)
    decreases 3 - attempt
  {
    var r := Attempts(s, url, domain, path, fileName, fileId, net, attempt, delay);
    if attempt < 3 {
      var s2 := Requested(s, url, attempt);
      var resp := net(attempt);
      if IsHttpError(resp.status) {
        var (s4, delay') := AfterError(s2, url, domain, resp, attempt, delay);
        AttemptFails(s, url, domain, path, fileName, fileId, net, attempt, delay);
        AfterErrorWaits(s2, url, domain, resp, attempt, delay);
        AttemptsRequests(s4, url, domain, path, fileName, fileId, net, attempt + 1, delay');
        var k := |r.requested| - |s4.requested|;
        assert r.requested == s.requested + [url] + Repeat(url, k);
        assert Repeat(url, k + 1) == [url] + Repeat(url, k);
      } else {
        AttemptStreams(s, url, domain, path, fileName, fileId, net, attempt, delay);
        StreamReports(s2.(fs := s2.fs + {path}), domain, path, fileId, resp.contentLength, resp.body, 0);
        assert r.requested == s.requested + Repeat(url, 1);
      }
    }
  }

  /**
   * The retry loop counts the file (once) exactly when the file is on disk at the end, and
   * touches no other file.
   */
  lemma {:induction false} AttemptsCountFile(s: BunkrState, url: string, domain: string, path: string, fileName: string,
                                             fileId: string, net: nat -> Response, attempt: nat, delay: nat)
    requires path !in s.fs
    ensures var r := Attempts(s, url, domain, path, fileName, fileId, net, attempt, delay);
      && ((r.completedFiles == s.completedFiles + 1 && path in r.fs)
          || (r.completedFiles == s.completedFiles && path !in r.fs))
      && r.fs - {path} == s.fs
    decreases 3 - attempt
  {
    if attempt < 3 {
      var s2 := Requested(s, url, attempt);
      var resp := net(attempt);
      if IsHttpError(resp.status) {
        var (s4, delay') := AfterError(s2, url, domain, resp, attempt, delay);
        AttemptFails(s, url, domain, path, fileName, fileId, net, attempt, delay);
        AfterErrorWaits(s2, url, domain, resp, attempt, delay);
        AttemptsCountFile(s4, url, domain, path, fileName, fileId, net, attempt + 1, delay');
      } else {
        AttemptStreams(s, url, domain, path, fileName, fileId, net, attempt, delay);
        StreamReports(s2.(fs := s2.fs + {path}), domain, path, fileId, resp.contentLength, resp.body, 0);
      }
    }
  }

  /**
   * The waits of the retry loop: the back-offs are the doubling delays from `delay`, every
   * other wait is 3 seconds, and there is at most one wait per request.
   */
  lemma {:induction false} AttemptsWaits(s: BunkrState, url: string, domain: string, path: string, fileName: string,
                                         fileId: string, net: nat -> Response, attempt: nat, delay: nat)
    ensures var r := Attempts(s, url, domain, path, fileName, fileId, net, attempt, delay);
      && |s.waits| <= |r.waits| && r.waits[..|s.waits|] == s.waits
      && BackoffSeconds(r.waits[|s.waits|..]) == Doubling(delay, |BackoffSeconds(r.waits[|s.waits|..])|)
      && (forall i :: |s.waits| <= i < |r.waits| && r.waits[i].Pause? ==> r.waits[i].seconds == 3)
      && |s.requested| <= |r.requested|
      && |r.waits| - |s.waits| <= |r.requested| - |s.requested|
    decreases 3 - attempt
  {
    var r := Attempts(s, url, domain, path, fileName, fileId, net, attempt, delay);
    if attempt < 3 {
      var s2 := Requested(s, url, attempt);
      var resp := net(attempt);
      if IsHttpError(resp.status) {
        var (s4, delay') := AfterError(s2, url, domain, resp, attempt, delay);
        AttemptFails(s, url, domain, path, fileName, fileId, net, attempt, delay);
        AfterErrorWaits(s2, url, domain, resp, attempt, delay);
        AttemptsWaits(s4, url, domain, path, fileName, fileId, net, attempt + 1, delay');
        assert r.waits[..|s.waits|] == r.waits[..|s4.waits|][..|s.waits|];
        var fresh4 := s4.waits[|s.waits|..];
        assert r.waits[|s.waits|..] == fresh4 + r.waits[|s4.waits|..];
        BackoffSecondsAppend(fresh4, r.waits[|s4.waits|..]);
        if resp.status == 429 {
          assert BackoffSeconds(fresh4) == [delay];
        } else {
          assert BackoffSeconds(fresh4) == [];
        }
      } else {
        AttemptStreams(s, url, domain, path, fileName, fileId, net, attempt, delay);
        StreamReports(s2.(fs := s2.fs + {path}), domain, path, fileId, resp.contentLength, resp.body, 0);
        assert r.waits == s.waits;
      }
    } else {
      assert r.waits[|s.waits|..] == [];
    }
  }

  /** Three answers "429" in a row: three requests, with waits of 1, 2 and 4 seconds. */
  lemma {:induction false} ThreeRateLimits(s: BunkrState, url: string, folder: string,
                        fileId: string, net: nat -> Response)
    requires !s.cancelRequested && PathJoin(folder, FileNameOf(url)) !in s.fs
    requires net(0).status == 429 && net(1).status == 429 && net(2).status == 429
    ensures var r := Download(s, url, folder, fileId, net);
      r.waits == s.waits + [Backoff(1), Backoff(2), Backoff(4)] && r.requested == s.requested + [url, url, url]
      && r.completedFiles == s.completedFiles
  {
    DownloadAttempts(s, url, folder, fileId, net);
    ThreeFailures(s, url, LogDomain(Some(url)), PathJoin(folder, FileNameOf(url)), FileNameOf(url), fileId, net);
    assert FailureWaits(net, 0, 1) == [Backoff(1), Backoff(2), Backoff(4)];
  }

  /** Three failed attempts from the first one: three requests, nothing counted, and the failure waits. */
  lemma {:induction false} ThreeFailures(s: BunkrState, url: string, domain: string, path: string, fileName: string,
                                         fileId: string, net: nat -> Response)
    requires IsHttpError(net(0).status) && IsHttpError(net(1).status) && IsHttpError(net(2).status)
    ensures var r := Attempts(s, url, domain, path, fileName, fileId, net, 0, 1);
      r.waits == s.waits + FailureWaits(net, 0, 1) && r.requested == s.requested + [url, url, url]
      && r.completedFiles == s.completedFiles
  {
    RetriesAllFail(s, url, domain, path, fileName, fileId, net, 0, 1);
    RepeatThree(url);
  }

  /** A new file, without a cancel, goes to the retry loop from the first attempt with a one-second delay. */
  lemma {:induction false} DownloadAttempts(s: BunkrState, url: string, folder: string, fileId: string, net: nat -> Response)
    requires !s.cancelRequested && PathJoin(folder, FileNameOf(url)) !in s.fs
    ensures Download(s, url, folder, fileId, net)
            == Attempts(s, url, LogDomain(Some(url)), PathJoin(folder, FileNameOf(url)), FileNameOf(url), fileId, net, 0, 1)
  {
  }

  lemma {:induction false} RepeatThree(url: string)
    ensures Repeat(url, 3) == [url, url, url]
  {
    assert Repeat(url, 3) == [url] + Repeat(url, 2);
  }

  /** Three other errors in a row: three requests, and a 3-second pause after the first two only. */
  lemma {:induction false} ThreeOtherErrors(s: BunkrState, url: string, folder: string,
                         fileId: string, net: nat -> Response)
    requires !s.cancelRequested && PathJoin(folder, FileNameOf(url)) !in s.fs
    requires IsHttpError(net(0).status) && IsHttpError(net(1).status) && IsHttpError(net(2).status)
    requires net(0).status != 429 && net(1).status != 429 && net(2).status != 429
    ensures var r := Download(s, url, folder, fileId, net);
      r.waits == s.waits + [Pause(3), Pause(3)] && r.requested == s.requested + [url, url, url]
      && r.completedFiles == s.completedFiles
  {
    DownloadAttempts(s, url, folder, fileId, net);
    ThreeFailures(s, url, LogDomain(Some(url)), PathJoin(folder, FileNameOf(url)), FileNameOf(url), fileId, net);
    assert FailureWaits(net, 0, 1) == [Pause(3), Pause(3)];
  }

  /** The waits of the attempts from `attempt` on when every one of them fails. */
  function FailureWaits(net: nat -> Response, attempt: nat, delay: nat): seq<Wait>
    decreases 3 - attempt
  {
    if attempt >= 3 then []
    else if net(attempt).status == 429 then [Backoff(delay)] + FailureWaits(net, attempt + 1, delay * 2)
    else (if attempt < 2 then [Pause(3)] else []) + FailureWaits(net, attempt + 1, delay)
  }

  /** When every remaining attempt fails, each is requested once and the waits are `FailureWaits`. */
  lemma {:induction false} RetriesAllFail(s: BunkrState, url: string, domain: string,
                                          path: string, fileName: string, fileId: string, net: nat -> Response,
                                          attempt: nat, delay: nat)
    requires forall k :: attempt <= k < 3 ==> IsHttpError(net(k).status)
    ensures var r := Attempts(s, url, domain, path, fileName, fileId, net, attempt, delay);
      && r.waits == s.waits + FailureWaits(net, attempt, delay)
      && r.requested == s.requested + Repeat(url, if attempt < 3 then 3 - attempt else 0)
      && r.completedFiles == s.completedFiles && r.fs == s.fs
    decreases 3 - attempt
  {
    if attempt < 3 {
      var s2 := Requested(s, url, attempt);
      var (s4, delay') := AfterError(s2, url, domain, net(attempt), attempt, delay);
      AttemptFails(s, url, domain, path, fileName, fileId, net, attempt, delay);
      var added := FailedAttemptWaits(s2, url, domain, net, attempt, delay);
      RetriesAllFail(s4, url, domain, path, fileName, fileId, net, attempt + 1, delay');
      var r := Attempts(s4, url, domain, path, fileName, fileId, net, attempt + 1, delay');
      FailedAttemptStep(s, s4, r, url, added, FailureWaits(net, attempt + 1, delay'), 2 - attempt);
    }
  }

  /** The waits a failed attempt adds, which open the waits of the failures from it on. */
  lemma {:induction false} FailedAttemptWaits(s2: BunkrState, url: string, domain: string, net: nat -> Response,
                                              attempt: nat, delay: nat) returns (added: seq<Wait>)
    requires attempt < 3 && IsHttpError(net(attempt).status)
    ensures var (s4, d) := AfterError(s2, url, domain, net(attempt), attempt, delay);
      && s4.waits == s2.waits + added
      && FailureWaits(net, attempt, delay) == added + FailureWaits(net, attempt + 1, d)
      && s4.requested == s2.requested && s4.fs == s2.fs && s4.completedFiles == s2.completedFiles
  {
    var (s4, d) := AfterError(s2, url, domain, net(attempt), attempt, delay);
    AfterErrorWaits(s2, url, domain, net(attempt), attempt, delay);
    added := s4.waits[|s2.waits|..];
    assert s4.waits == s4.waits[..|s2.waits|] + added;
  }

  /** One failed request in front of `k` more: `k + 1` requests, and the waits of both in order. */
  lemma {:induction false} FailedAttemptStep(s: BunkrState, s4: BunkrState, r: BunkrState, url: string,
                                             added: seq<Wait>, later: seq<Wait>, k: nat)
    requires s4.requested == s.requested + [url] && s4.waits == s.waits + added
    requires s4.completedFiles == s.completedFiles && s4.fs == s.fs
    requires r.waits == s4.waits + later && r.requested == s4.requested + Repeat(url, k)
    requires r.completedFiles == s4.completedFiles && r.fs == s4.fs
    ensures r.waits == s.waits + (added + later) && r.requested == s.requested + Repeat(url, k + 1)
    ensures r.completedFiles == s.completedFiles && r.fs == s.fs
  {
    assert Repeat(url, k + 1) == [url] + Repeat(url, k);
  }

  /**
   * Over a whole `download_file` call: at most three requests, at most one more completed file,
   * and a counted file is on disk; the reported byte counts never decrease.
   */
  lemma {:induction false} DownloadCountsAtMostOnce(s: BunkrState, url: string, folder: string,
                                 fileId: string, net: nat -> Response)
    ensures var r := Download(s, url, folder, fileId, net);
      && |r.requested| <= |s.requested| + 3
      && s.completedFiles <= r.completedFiles <= s.completedFiles + 1
      && (r.completedFiles == s.completedFiles + 1 ==> PathJoin(folder, FileNameOf(url)) in r.fs)
      && (forall i, j :: |s.progress| <= i <= j < |r.progress| ==> r.progress[i].downloaded <= r.progress[j].downloaded)
  {
    var path := PathJoin(folder, FileNameOf(url));
    var domain := LogDomain(Some(url));
    if !s.cancelRequested && path !in s.fs {
      AttemptsRequests(s, url, domain, path, FileNameOf(url), fileId, net, 0, 1);
      AttemptsCountFile(s, url, domain, path, FileNameOf(url), fileId, net, 0, 1);
      AttemptsProgressMonotone(s, url, domain, path, FileNameOf(url), fileId, net, 0, 1);
    }
  }

  lemma {:induction false} AttemptsProgressMonotone(s: BunkrState, url: string,
                                                    domain: string, path: string, fileName: string, fileId: string,
                                                    net: nat -> Response, attempt: nat, delay: nat)
    ensures var r := Attempts(s, url, domain, path, fileName, fileId, net, attempt, delay);
      forall i, j :: |s.progress| <= i <= j < |r.progress| ==> r.progress[i].downloaded <= r.progress[j].downloaded
    decreases 3 - attempt
  {
    if attempt < 3 {
      var s2 := Requested(s, url, attempt);
      var resp := net(attempt);
      if IsHttpError(resp.status) {
        var (s4, delay') := AfterError(s2, url, domain, resp, attempt, delay);
        AttemptFails(s, url, domain, path, fileName, fileId, net, attempt, delay);
        AfterErrorWaits(s2, url, domain, resp, attempt, delay);
        AttemptsProgressMonotone(s4, url, domain, path, fileName, fileId, net, attempt + 1, delay');
      } else {
        AttemptStreams(s, url, domain, path, fileName, fileId, net, attempt, delay);
        var s3 := s2.(fs := s2.fs + {path});
        StreamProgressMonotone(s3, domain, path, fileId, resp.contentLength, resp.body, 0);
        StreamReports(s3, domain, path, fileId, resp.contentLength, resp.body, 0);
      }
    }
  }

  // ---------------------------------------------------------------------------------------------
  // Folder names

  /** The album folder name of `descargar_post_bunkr`: the cleaned title cut to 50 characters, or "bunkr_post". */
  function PostFolderName(md5: string -> HexDigest, url: string, title: Option<string>): (r: string)
    ensures |r| <= 59 && EndsWith(r, "_" + UrlHash8(md5, url))
  {
    var name := match title
      case Some(t) => var c := CleanFilename(Strip(t)); if |c| <= 50 then c else c[..50]
      case None => "bunkr_post";
    ConsistentFolderName(md5, url, name)
  }

  /** The profile folder name of `descargar_perfil_bunkr`: the stripped title (not cut), or "bunkr_profile". */
  function ProfileFolderName(md5: string -> HexDigest, url: string, title: Option<string>): (r: string)
    ensures EndsWith(r, "_" + UrlHash8(md5, url))
    ensures title.None? ==> r == "bunkr_profile" + "_" + UrlHash8(md5, url)
  {
    match title
    case Some(t) => ConsistentFolderName(md5, url, Strip(t))
    case None =>
      DefaultNameIsClean("bunkr_profile");
      ConsistentFolderNameOfClean(md5, url, "bunkr_profile");
      ConsistentFolderName(md5, url, "bunkr_profile")
  }

  lemma {:induction false} DefaultNameIsClean(name: string)
    requires name == "bunkr_profile" || name == "bunkr_post"
    ensures forall i :: 0 <= i < |name| ==> name[i] !in Forbidden
  {
  }

  // ---------------------------------------------------------------------------------------------
  // The downloader object

  class BunkrDownloader {
    const translations: map<string, string>
    var cancelRequested: bool
    var totalFiles: nat
    var completedFiles: nat
    var logMessages: seq<LogEntry>
    var callbackLog: seq<string>
    var progress: seq<Progress>
    var globalProgress: seq<(nat, nat)>
    var fs: set<string>
    var requested: seq<string>
    var waits: seq<Wait>

    /** The log buffer as the strings `log` appended. */
    function LogText(): seq<string>
      reads this
    {
      LogLines(translations, logMessages)
    }

    function Snapshot(): BunkrState
      reads this
    {
      BunkrState(cancelRequested, totalFiles, completedFiles, logMessages, callbackLog, progress,
                 globalProgress, fs, requested, waits)
    }

    /** A new downloader over the files `fs` already on disk. */
    constructor(translations: map<string, string>, fs: set<string>)
      ensures this.translations == translations
      ensures Snapshot() == BunkrState(false, 0, 0, [], [], [], [], fs, [], [])
    {
      this.translations := translations;
      cancelRequested := false;
      totalFiles := 0;
      completedFiles := 0;
      logMessages := [];
      callbackLog := [];
      progress := [];
      globalProgress := [];
      this.fs := fs;
      requested := [];
      waits := [];
    }

    /** `log(message, url)`. */
    method Log(message: Message, url: Option<string>)
      modifies this
      ensures Snapshot() == WithLog(old(Snapshot()), message, LogDomain(url))
    {
      logMessages := logMessages + [LogEntry(LogDomain(url), message)];
    }

    /** `log` with the prefix already worked out. */
    method LogAt(message: Message, domain: string)
      modifies this
      ensures Snapshot() == WithLog(old(Snapshot()), message, domain)
    {
      logMessages := logMessages + [LogEntry(domain, message)];
    }

    /** `request_cancel()`, with `shutdown_executor()`'s message. */
    method RequestCancel()
      modifies this
      ensures Snapshot() == CancelRequested(old(Snapshot()))
    {
      cancelRequested := true;
      Log(Note(CancelledText), None);
      Log(Note(ShutDownText), None);
    }

    /**
     * The chunk loop of `download_file` over a response body, writing to `filePath`; false when
     * a chunk found the cancel flag set, the partial file being removed.
     */
    method StreamChunks(domain: string, filePath: string, fileId: string, total: nat, body: seq<Event>)
      returns (finished: bool)
      modifies this
      ensures (Snapshot(), finished) == Stream(old(Snapshot()), domain, filePath, fileId, total, body, 0)
    {
      ghost var goal := Stream(Snapshot(), domain, filePath, fileId, total, body, 0);
      var downloaded: nat := 0;
      for i := 0 to |body|
        invariant Stream(Snapshot(), domain, filePath, fileId, total, body[i..], downloaded) == goal
      {
        assert body[i..][1..] == body[i + 1..];
        match body[i]
        case Cancel =>
          RequestCancel();
        case Data(n) =>
          if cancelRequested {
            LogAt(Note(CancelledMidFileText), domain);
            fs := fs - {filePath};
            return false;
          }
          downloaded := downloaded + n;
          progress := progress + [Progress(downloaded, total, fileId, filePath)];
      }
      assert body[|body|..] == [];
      return true;
    }

    /** `download_file(url, folder, file_id)`; `net(k)` is the answer to the `k`-th attempt. */
    method DownloadFile(url: string, folder: string, fileId: string, net: nat -> Response)
      modifies this
      ensures Snapshot() == Download(old(Snapshot()), url, folder, fileId, net)
    {
      ghost var domain := LogDomain(Some(url));
      if cancelRequested {
        Log(Note(CancelledBeforeText), Some(url));
        return;
      }
      var fileName := FileNameOf(url);
      var filePath := PathJoin(folder, fileName);
      if filePath in fs {
        Log(Skipped(filePath), None);
        completedFiles := completedFiles + 1;
        globalProgress := globalProgress + [(completedFiles, totalFiles)];
        return;
      }
      RetryLoop(url, LogDomain(Some(url)), filePath, fileName, fileId, net);
    }

    /** A successful answer: the file is created, the body streamed into it, and, if it ran to the end, counted. */
    method SaveResponse(domain: string, filePath: string, fileName: string, fileId: string, response: Response)
      modifies this
      ensures var sf := Stream(old(Snapshot()).(fs := old(fs) + {filePath}), domain, filePath, fileId,
                               response.contentLength, response.body, 0);
              Snapshot() == if sf.1 then Completed(sf.0, domain, fileName) else sf.0
    {
      fs := fs + {filePath};
      var finished := StreamChunks(domain, filePath, fileId, response.contentLength, response.body);
      if finished {
        FileCompleted(domain, fileName);
      }
    }

    /** The `except` branch of one attempt; returns the next delay. */
    method AttemptFailed(url: string, domain: string, response: Response, attempt: nat, delay: nat)
      returns (nextDelay: nat)
      requires IsHttpError(response.status)
      modifies this
      ensures (Snapshot(), nextDelay) == AfterError(old(Snapshot()), url, domain, response, attempt, delay)
    {
      if response.status == 429 {
        LogAt(RateLimited(delay), "General");
        waits := waits + [Backoff(delay)];
        nextDelay := delay * 2;
      } else {
        LogAt(AttemptError(url, response.status as nat, response.reason, attempt), domain);
        if attempt < 2 {
          waits := waits + [Pause(3)];
        }
        nextDelay := delay;
      }
    }

    /** What follows a stream that ran to its end. */
    method FileCompleted(domain: string, fileName: string)
      modifies this
      ensures Snapshot() == Completed(old(Snapshot()), domain, fileName)
    {
      LogAt(Note(FileSavedText), domain);
      callbackLog := callbackLog + ["Descarga completada: " + fileName];
      completedFiles := completedFiles + 1;
      globalProgress := globalProgress + [(completedFiles, totalFiles)];
    }

    /** The `for attempt in range(3)` loop of `download_file`, saving to `filePath`. */
    method RetryLoop(url: string, domain: string, filePath: string, fileName: string, fileId: string, net: nat -> Response)
      modifies this
      ensures Snapshot() == Attempts(old(Snapshot()), url, domain, filePath, fileName, fileId, net, 0, 1)
    {
      ghost var goal := Attempts(Snapshot(), url, domain, filePath, fileName, fileId, net, 0, 1);
      var delay: nat := 1;
      for attempt := 0 to 3
        invariant Attempts(Snapshot(), url, domain, filePath, fileName, fileId, net, attempt, delay) == goal
      {
        ghost var before := Snapshot();
        LogAt(Attempting(url, attempt), "General");
        requested := requested + [url];
        assert Snapshot() == Requested(before, url, attempt);
        var response := net(attempt);
        if IsHttpError(response.status) {
          AttemptFails(before, url, domain, filePath, fileName, fileId, net, attempt, delay);
          delay := AttemptFailed(url, domain, response, attempt, delay);
        } else {
          AttemptStreams(before, url, domain, filePath, fileName, fileId, net, attempt, delay);
          SaveResponse(domain, filePath, fileName, fileId, response);
          return;
        }
      }
    }
  }
}
