/**
 * The application window, reduced to the state its download logic reads and writes: the error
 * and warning lists, the text of the log panel, the state of the three action widgets, the
 * update queue that worker threads use to re-enable them, the active downloader and the download
 * threads started. Each operation is specified by a function on `AppState`; the `App` class
 * holds the same state in fields and its methods are proved to follow those functions.
 */
module UiApp {
  import opened Wrappers
  import opened Text
  import opened Urls
  import opened Translation
  import opened UiParams

  datatype WidgetState = Normal | Disabled

  /** The download button, the cancel button and the "download all" check box. */
  datatype Widgets = Widgets(download: WidgetState, cancel: WidgetState, downloadAll: WidgetState)

  /** The tasks `enable_widgets` puts on the update queue, in its order. */
  datatype Task = EnableDownload | DisableCancel | EnableDownloadAll

  /** Which downloader object `active_downloader` refers to. */
  datatype Site = EromeSite(profile: bool) | BunkrSite | GeneralSite | GofileSite | PhicaSite | SimpCitySite | Jpg5Site

  /** A download thread: the downloader method it runs and its arguments. */
  datatype Job =
    | EromeAlbum(url: string, folder: string, images: bool, videos: bool)
    | EromeProfile(url: string, folder: string, images: bool, videos: bool)
    | BunkrPost(url: string)
    | BunkrProfile(url: string)
    | CkPost(site: string, service: string, user: string, post: string)
    | CkProfile(site: string, service: string, user: string, query: Option<string>, downloadAll: bool, offset: nat)
    | GofileContent(url: string)
    | PhicaThread(url: string)
    | SimpCityThread(url: string)
    | Jpg5Album(url: string)

  datatype AppState = AppState(
    translations: map<string, string>,
    downloadFolder: string,
    downloadAll: bool,
    downloadImages: bool,
    downloadVideos: bool,
    errors: seq<string>,
    warnings: seq<string>,
    logText: string,
    dialogs: seq<(string, string)>,
    widgets: Widgets,
    queue: seq<Task>,
    active: Option<Site>,
    jobs: seq<Job>,
    cancels: seq<Site>)

  // ---------------------------------------------------------------------------------------------
  // Logging

  /** `word in message.lower()`: the word starts some suffix of the lower-cased message. */
  predicate Mentions(message: string, word: string) {
    exists i :: 0 <= i <= |message| && StartsWith(Lower(message)[i..], word)
  }

  /** `Mentions` is Python's `word in message.lower()`. */
  lemma {:induction false} MentionsIsContains(message: string, word: string)
    ensures Mentions(message, word) <==> Contains(Lower(message), word)
  {
    if Mentions(message, word) {
      MentionsContains(message, word);
    }
    if Contains(Lower(message), word) {
      ContainsMentions(message, word);
    }
  }

  lemma {:induction false} MentionsContains(message: string, word: string)
    requires Mentions(message, word)
    ensures Contains(Lower(message), word)
  {
    var l := Lower(message);
    var i :| 0 <= i <= |message| && StartsWith(l[i..], word);
    assert l[i..i + |word|] == l[i..][..|word|];
    ContainsAt(l, word, i);
  }

  lemma {:induction false} ContainsMentions(message: string, word: string)
    requires Contains(Lower(message), word)
    ensures Mentions(message, word)
  {
    var l := Lower(message);
    var i := IndexOf(l, word).value;
    assert l[i..i + |word|] == l[i..][..|word|];
    assert StartsWith(l[i..], word);
  }

  /** The message itself when it mentions `word`, else nothing. */
  function Tagged(message: string, word: string): seq<string> {
    if Mentions(message, word) then [message] else []
  }

  /**
   * `add_log_message_safe(message)`: the message goes to the errors when it mentions "error", to
   * the warnings when it mentions "warning", and onto the log panel, which is then trimmed.
   */
  function AddLog(s: AppState, message: string): AppState {
    s.(errors := s.errors + Tagged(message, "error"),
       warnings := s.warnings + Tagged(message, "warning"),
       logText := LimitLogLines(s.logText + message + "\n"))
  }

  /** `add_log_message_safe(self.tr(text))`. */
  function Say(s: AppState, text: string): AppState {
    AddLog(s, Lookup(s.translations, text))
  }

  /** `log_error(message)`: the message is put on the errors, then logged with an "Error: " prefix. */
  function LogError(s: AppState, message: string): AppState {
    AddLog(s.(errors := s.errors + [message]), "Error: " + message)
  }

  /** `log_warning(message)`: the message is put on the warnings, then logged with a "Warning: " prefix. */
  function LogWarning(s: AppState, message: string): AppState {
    AddLog(s.(warnings := s.warnings + [message]), "Warning: " + message)
  }

  /** A logged message is recorded as an error exactly when it mentions "error", and likewise for warnings. */
  lemma {:induction false} AddLogClassifies(s: AppState, message: string)
    ensures var r := AddLog(s, message);
            && (Contains(Lower(message), "error") <==> r.errors == s.errors + [message])
            && (!Contains(Lower(message), "error") <==> r.errors == s.errors)
            && (Contains(Lower(message), "warning") <==> r.warnings == s.warnings + [message])
            && (!Contains(Lower(message), "warning") <==> r.warnings == s.warnings)
            && r.(errors := s.errors, warnings := s.warnings, logText := s.logText) == s
  {
    var r := AddLog(s, message);
    MentionsIsContains(message, "error");
    MentionsIsContains(message, "warning");
    assert |s.errors + [message]| != |s.errors|;
    assert |s.warnings + [message]| != |s.warnings|;
  }

  /**
   * A one-line message ends up as the last line of the panel, and the panel keeps at most
   * `MaxLogLines` lines, the ones shown before it in their order.
   */
  lemma {:induction false} AddLogShowsMessage(s: AppState, message: string)
    requires LineTerminated(s.logText) && NoNewline(message)
    ensures var shown := DisplayedLines(AddLog(s, message).logText);
            var before := DisplayedLines(s.logText) + [message];
            && LineTerminated(AddLog(s, message).logText)
            && 1 <= |shown| <= MaxLogLines && |shown| <= |before|
            && shown == before[|before| - |shown|..]
            && shown[|shown| - 1] == message
  {
    var t := s.logText + message + "\n";
    AppendLine(s.logText, message);
    LimitLogLinesShowsRecent(t);
    LimitLogLinesTerminated(t);
    var shown := DisplayedLines(LimitLogLines(t));
    var before := DisplayedLines(t);
    assert |shown| >= 1 by {
      LimitLogLinesKeepsRecent(t);
      TerminatedText(t);
      if |Split(t, '\n')| > MaxLogLines {
        var kept := KeptPieces(t);
      }
    }
    assert shown[|shown| - 1] == before[|before| - 1];
  }

  /** `Lower("Error: " + m)` holds "error" at its start, and so does the warning prefix hold "warning". */
  lemma {:induction false} PrefixTagged(prefix: string, word: string, message: string)
    requires |word| <= |prefix| && Lower(prefix)[..|word|] == word
    ensures Tagged(prefix + message, word) == [prefix + message]
  {
    LowerAppend(prefix, message);
    var l := Lower(prefix + message);
    assert l[0..|word|] == Lower(prefix)[..|word|];
    ContainsAt(l, word, 0);
    MentionsIsContains(prefix + message, word);
  }

  /** `log_error` puts the message on the errors twice: once as given, once with its "Error: " prefix. */
  lemma {:induction false} LogErrorRecordsTwice(s: AppState, message: string)
    ensures LogError(s, message).errors == s.errors + [message, "Error: " + message]
    ensures LogError(s, message).warnings == s.warnings + Tagged("Error: " + message, "warning")
  {
    ErrorPrefixLower();
    PrefixTagged("Error: ", "error", message);
  }

  /** `log_warning` puts the message on the warnings twice, and on the errors only if it mentions "error". */
  lemma {:induction false} LogWarningRecordsTwice(s: AppState, message: string)
    ensures LogWarning(s, message).warnings == s.warnings + [message, "Warning: " + message]
    ensures LogWarning(s, message).errors == s.errors + Tagged("Warning: " + message, "error")
  {
    WarningPrefixLower();
    PrefixTagged("Warning: ", "warning", message);
  }

  lemma {:induction false} WarningPrefixLower()
    ensures Lower("Warning: ")[..7] == "warning"
  {
    LowerCapitalised("Warning: ", 7);
  }

  lemma {:induction false} ErrorPrefixLower()
    ensures Lower("Error: ")[..5] == "error"
  {
    LowerCapitalised("Error: ", 5);
  }

  /** Lowering a word whose only capital is its first letter changes just that letter. */
  lemma {:induction false} LowerCapitalised(w: string, n: nat)
    requires 0 < n <= |w|
    requires IsAsciiUpper(w[0])
    requires forall i :: 0 < i < n ==> !IsAsciiUpper(w[i])
    ensures Lower(w)[..n] == [LowerChar(w[0])] + w[1..n]
  {
    var l := Lower(w);
    assert l[..n] == [l[0]] + l[1..n];
    assert l[1..n] == w[1..n];
  }

  // ---------------------------------------------------------------------------------------------
  // The update queue

  const EnableWidgetsTasks: seq<Task> := [EnableDownload, DisableCancel, EnableDownloadAll]

  /** `enable_widgets()`: three tasks are queued; nothing changes until the queue is drained. */
  function EnableWidgets(s: AppState): AppState {
    s.(queue := s.queue + EnableWidgetsTasks)
  }

  function RunTask(w: Widgets, t: Task): Widgets {
    match t
    case EnableDownload => w.(download := Normal)
    case DisableCancel => w.(cancel := Disabled)
    case EnableDownloadAll => w.(downloadAll := Normal)
  }

  /** The widgets after running the tasks in queue order. */
  function RunTasks(w: Widgets, tasks: seq<Task>): Widgets
    decreases |tasks|
  {
    if tasks == [] then w else RunTasks(RunTask(w, tasks[0]), tasks[1..])
  }

  lemma {:induction false} RunTasksAppend(w: Widgets, a: seq<Task>, b: seq<Task>)
    ensures RunTasks(w, a + b) == RunTasks(RunTasks(w, a), b)
    decreases |a|
  {
    if a != [] {
      assert (a + b)[0] == a[0] && (a + b)[1..] == a[1..] + b;
      RunTasksAppend(RunTask(w, a[0]), a[1..], b);
    } else {
      assert a + b == b;
    }
  }

  /** The widgets a finished or idle window shows. */
  const Idle := Widgets(Normal, Disabled, Normal)

  /**
   * Whatever is queued before it, once the tasks of `enable_widgets` have run the download
   * button and the check box are enabled and the cancel button is disabled.
   */
  lemma {:induction false} EnableWidgetsRestores(w: Widgets, queue: seq<Task>)
    ensures RunTasks(w, queue + EnableWidgetsTasks) == Idle
  {
    RunTasksAppend(w, queue, EnableWidgetsTasks);
    var v := RunTasks(w, queue);
    var v1 := RunTask(v, EnableDownload);
    var v2 := RunTask(v1, DisableCancel);
    var v3 := RunTask(v2, EnableDownloadAll);
    assert RunTasks(v2, [EnableDownloadAll]) == v3;
    assert RunTasks(v1, [DisableCancel, EnableDownloadAll]) == v3;
    assert RunTasks(v, EnableWidgetsTasks) == v3;
  }

  // ---------------------------------------------------------------------------------------------
  // Handlers

  /** `start_download_thread(target, args)`: a thread is started for the job. */
  function StartThread(s: AppState, job: Job): AppState {
    s.(jobs := s.jobs + [job])
  }

  function HandleErome(s: AppState, url: string): AppState {
    var profile := !Contains(url, "/a/");
    var s1 := Say(s, "Downloading Erome").(active := Some(EromeSite(profile)));
    if !profile then
      StartThread(Say(s1, "Album URL"), EromeAlbum(url, s.downloadFolder, s.downloadImages, s.downloadVideos))
    else
      StartThread(Say(s1, "Profile URL"), EromeProfile(url, s.downloadFolder, s.downloadImages, s.downloadVideos))
  }

  function HandleBunkr(s: AppState, url: string): AppState {
    var s1 := Say(s, "Downloading Bunkr").(active := Some(BunkrSite));
    if Contains(url, "/v/") || Contains(url, "/i/") then StartThread(Say(s1, "Post URL"), BunkrPost(url))
    else StartThread(Say(s1, "Profile URL"), BunkrProfile(url))
  }

  /** The text `Extracted service: {service} from site: {site}`. */
  const ExtractedKey := "Extracted service: " + Placeholder("service") + " from site: " + Placeholder("site")

  function ExtractedArgs(service: string, site: string): map<string, string> {
    map["service" := service, "site" := site]
  }

  /** The "Extracted service" message formats for every service and site. */
  ghost predicate ExtractedMessageFormats(translations: map<string, string>) {
    forall service, site :: Tr(translations, ExtractedKey, ExtractedArgs(service, site)).Some?
  }

  /** Untranslated, the message names the service and the site. */
  lemma {:induction false} ExtractedMessageUntranslated(translations: map<string, string>, service: string, site: string)
    requires ExtractedKey !in translations
    ensures Tr(translations, ExtractedKey, ExtractedArgs(service, site))
            == Some("Extracted service: " + service + " from site: " + site)
  {
    var args := ExtractedArgs(service, site);
    FormatTwoFields("Extracted service: ", "service", " from site: ", "site", args);
  }

  lemma {:induction false} ExtractedMessageFormatsUntranslated(translations: map<string, string>)
    requires ExtractedKey !in translations
    ensures ExtractedMessageFormats(translations)
  {
    forall service, site ensures Tr(translations, ExtractedKey, ExtractedArgs(service, site)).Some? {
      ExtractedMessageUntranslated(translations, service, site);
    }
  }

  /**
   * `handle_general_download(parsed, download_all)`. When service or user is missing, the error is
   * logged and shown and `reset_download_buttons()` is called; that method exists nowhere, so as
   * written the call raises and the buttons stay as `start_download` set them. The corrected
   * behaviour resets them as the "Invalid URL" branch of `start_download` does.
   */
  function HandleGeneral(s: AppState, parsed: SplitUrl, downloadAll: bool, asWritten: bool): AppState {
    var s1 := Say(s, "Starting download...").(active := Some(GeneralSite));
    var p := ExtractCkParameters(parsed.path);
    if p.service.None? || p.user.None? then MissingParameters(s1, asWritten)
    else
      var extracted := Tr(s1.translations, ExtractedKey, ExtractedArgs(p.service.value, parsed.netloc));
      GeneralJob(s1, extracted, parsed.netloc, p.service.value, p.user.value, p.post, parsed.query, downloadAll)
  }

  /** The error path of `handle_general_download`. */
  function MissingParameters(s: AppState, asWritten: bool): AppState {
    var message := Lookup(s.translations, "Could not extract necessary parameters from the URL.");
    var s1 := AddLog(s, message).(dialogs := s.dialogs + [(Lookup(s.translations, "Error"), message)]);
    if asWritten then s1 else s1.(widgets := s1.widgets.(download := Normal, cancel := Disabled))
  }

  /**
   * The thread `handle_general_download` starts once service and user are known; when the
   * translated "Extracted service" text cannot be formatted, `tr` raises and nothing starts.
   */
  function GeneralJob(s: AppState, extracted: Option<string>, site: string, service: string, user: string,
                      post: Option<string>, query: string, downloadAll: bool): AppState {
    match extracted
    case None => s
    case Some(extracted) =>
      var s1 := AddLog(s, extracted);
      if post.Some? then
        StartThread(Say(s1, "Downloading single post..."), CkPost(site, service, user, post.value))
      else
        var (q, offset) := ExtractCkQuery(query);
        var note := if downloadAll then "Downloading all user content..." else "Downloading only posts from the provided URL...";
        StartThread(Say(s1, note), CkProfile(site, service, user, q, downloadAll, offset))
  }

  /** A handler whose downloader takes only the URL: log, make the downloader active, start its thread. */
  function HandleSimple(s: AppState, note: string, site: Site, job: Job): AppState {
    StartThread(Say(s, note).(active := Some(site)), job)
  }

  // ---------------------------------------------------------------------------------------------
  // start_download

  /** `start_download()` on the text of the URL entry, `asWritten` choosing the general handler's variant. */
  function StartDownload(s: AppState, entry: string, asWritten: bool): AppState {
    var url := Strip(entry);
    if s.downloadFolder == "" then
      s.(dialogs := s.dialogs + [(Lookup(s.translations, "Error"), Lookup(s.translations, "Please select a download folder."))])
    else
      Dispatch(s.(widgets := s.widgets.(download := Disabled, cancel := Normal), errors := []),
               url, ChooseRoute(url), s.downloadAll, asWritten)
  }

  /** The handler `start_download` calls for the route of the URL; an invalid URL re-enables the buttons. */
  function Dispatch(s: AppState, url: string, route: Route, downloadAll: bool, asWritten: bool): AppState {
    match route
    case EromeRoute => HandleErome(s, url)
    case BunkrRoute => HandleBunkr(s, url)
    case GeneralRoute => HandleGeneral(s, UrlParse(url), downloadAll, asWritten)
    case GofileRoute => HandleSimple(s, "Downloading Gofile", GofileSite, GofileContent(url))
    case PhicaRoute => HandleSimple(s, "Downloading Phica", PhicaSite, PhicaThread(url))
    case SimpCityRoute => HandleSimple(s, "Downloading SimpCity", SimpCitySite, SimpCityThread(url))
    case Jpg5Route => HandleSimple(s, "Downloading from Jpg5", Jpg5Site, Jpg5Album(url))
    case InvalidRoute => Say(s, "Invalid URL").(widgets := s.widgets.(download := Normal, cancel := Disabled))
  }

  /** Without a download folder only the error dialog appears: no handler runs and no widget changes. */
  lemma {:induction false} StartDownloadNeedsFolder(s: AppState, entry: string, asWritten: bool)
    requires s.downloadFolder == ""
    ensures var r := StartDownload(s, entry, asWritten);
            r.(dialogs := s.dialogs) == s && |r.dialogs| == |s.dialogs| + 1
  {
  }

  /** `r` is `s` with at most one more thread, which belongs to the active downloader. */
  predicate AtMostOneJob(s: AppState, r: AppState) {
    && (r.jobs == s.jobs || (|r.jobs| == |s.jobs| + 1 && r.jobs[..|s.jobs|] == s.jobs))
    && (r.jobs != s.jobs ==> r.active.Some? && r.widgets == s.widgets)
    && r.queue == s.queue && r.cancels == s.cancels
  }

  /** Every handler starts at most one thread and queues nothing. */
  lemma {:induction false} DispatchOneJob(s: AppState, url: string, route: Route, downloadAll: bool, asWritten: bool)
    ensures AtMostOneJob(s, Dispatch(s, url, route, downloadAll, asWritten))
  {
    match route
    case EromeRoute => EromeOneJob(s, url);
    case BunkrRoute => BunkrOneJob(s, url);
    case GeneralRoute => GeneralOneJob(s, UrlParse(url), downloadAll, asWritten);
    case GofileRoute => SimpleOneJob(s, "Downloading Gofile", GofileSite, GofileContent(url));
    case PhicaRoute => SimpleOneJob(s, "Downloading Phica", PhicaSite, PhicaThread(url));
    case SimpCityRoute => SimpleOneJob(s, "Downloading SimpCity", SimpCitySite, SimpCityThread(url));
    case Jpg5Route => SimpleOneJob(s, "Downloading from Jpg5", Jpg5Site, Jpg5Album(url));
    case InvalidRoute => SayKeeps(s, "Invalid URL");
  }

  /** Logging changes only the error and warning lists and the log panel. */
  lemma {:induction false} SayKeeps(s: AppState, text: string)
    ensures var r := Say(s, text);
            && r.jobs == s.jobs && r.queue == s.queue && r.cancels == s.cancels && r.widgets == s.widgets
            && r.active == s.active && r.dialogs == s.dialogs && r.translations == s.translations
            && r.downloadFolder == s.downloadFolder && r.downloadAll == s.downloadAll
  {
  }

  /** Logging twice and starting one thread adds exactly that thread. */
  lemma {:induction false} LogTwiceThenStart(s: AppState, first: string, active: Site, second: string, job: Job)
    ensures var r := StartThread(Say(Say(s, first).(active := Some(active)), second), job);
            r.jobs == s.jobs + [job] && AtMostOneJob(s, r) && r.active == Some(active)
  {
    SayKeeps(s, first);
    SayKeeps(Say(s, first).(active := Some(active)), second);
    assert (s.jobs + [job])[..|s.jobs|] == s.jobs;
  }

  lemma {:induction false} EromeOneJob(s: AppState, url: string)
    ensures AtMostOneJob(s, HandleErome(s, url)) && HandleErome(s, url).jobs != s.jobs
  {
    var profile := !Contains(url, "/a/");
    var job := if profile then EromeProfile(url, s.downloadFolder, s.downloadImages, s.downloadVideos)
               else EromeAlbum(url, s.downloadFolder, s.downloadImages, s.downloadVideos);
    LogTwiceThenStart(s, "Downloading Erome", EromeSite(profile), if profile then "Profile URL" else "Album URL", job);
  }

  lemma {:induction false} BunkrOneJob(s: AppState, url: string)
    ensures AtMostOneJob(s, HandleBunkr(s, url)) && HandleBunkr(s, url).jobs != s.jobs
  {
    var post := Contains(url, "/v/") || Contains(url, "/i/");
    LogTwiceThenStart(s, "Downloading Bunkr", BunkrSite, if post then "Post URL" else "Profile URL",
                      if post then BunkrPost(url) else BunkrProfile(url));
  }

  lemma {:induction false} SimpleOneJob(s: AppState, note: string, site: Site, job: Job)
    ensures AtMostOneJob(s, HandleSimple(s, note, site, job)) && HandleSimple(s, note, site, job).jobs != s.jobs
  {
    SayKeeps(s, note);
    assert (s.jobs + [job])[..|s.jobs|] == s.jobs;
  }

  lemma {:induction false} GeneralOneJob(s: AppState, parsed: SplitUrl, downloadAll: bool, asWritten: bool)
    ensures AtMostOneJob(s, HandleGeneral(s, parsed, downloadAll, asWritten))
  {
    var s1 := Say(s, "Starting download...").(active := Some(GeneralSite));
    var p := ExtractCkParameters(parsed.path);
    if p.service.Some? && p.user.Some? {
      var extracted := Tr(s1.translations, ExtractedKey, ExtractedArgs(p.service.value, parsed.netloc));
      GeneralJobOneJob(s1, extracted, parsed.netloc, p.service.value, p.user.value, p.post, parsed.query, downloadAll);
    }
  }

  lemma {:induction false} GeneralJobOneJob(s: AppState, extracted: Option<string>, site: string, service: string, user: string,
                         post: Option<string>, query: string, downloadAll: bool)
    requires s.active.Some?
    ensures AtMostOneJob(s, GeneralJob(s, extracted, site, service, user, post, query, downloadAll))
    ensures extracted.Some? <==> GeneralJob(s, extracted, site, service, user, post, query, downloadAll).jobs != s.jobs
  {
    var r := GeneralJob(s, extracted, site, service, user, post, query, downloadAll);
    if extracted.Some? {
      assert r.jobs[..|s.jobs|] == s.jobs;
    }
  }

  /**
   * A call starts at most one download thread; when it starts one, the downloader it belongs to
   * is the active one and the download button is disabled until the thread re-enables it.
   */
  lemma {:induction false} StartDownloadOneJob(s: AppState, entry: string, asWritten: bool)
    ensures var r := StartDownload(s, entry, asWritten);
            && (r.jobs == s.jobs || (|r.jobs| == |s.jobs| + 1 && r.jobs[..|s.jobs|] == s.jobs))
            && (r.jobs != s.jobs ==> r.active.Some? && r.widgets.download == Disabled && r.widgets.cancel == Normal)
            && r.queue == s.queue && r.cancels == s.cancels
  {
    if s.downloadFolder != "" {
      var url := Strip(entry);
      DispatchOneJob(s.(widgets := s.widgets.(download := Disabled, cancel := Normal), errors := []),
                     url, ChooseRoute(url), s.downloadAll, asWritten);
    }
  }

  /** The corrected handlers leave the buttons as they were only by starting a thread. */
  lemma {:induction false} DispatchRecovers(s: AppState, url: string, route: Route, downloadAll: bool)
    requires ExtractedMessageFormats(s.translations)
    ensures var r := Dispatch(s, url, route, downloadAll, false);
            r.jobs == s.jobs ==> r.widgets.download == Normal && r.widgets.cancel == Disabled
  {
    match route
    case EromeRoute => EromeOneJob(s, url);
    case BunkrRoute => BunkrOneJob(s, url);
    case GeneralRoute => GeneralRecovers(s, UrlParse(url), downloadAll);
    case GofileRoute => SimpleOneJob(s, "Downloading Gofile", GofileSite, GofileContent(url));
    case PhicaRoute => SimpleOneJob(s, "Downloading Phica", PhicaSite, PhicaThread(url));
    case SimpCityRoute => SimpleOneJob(s, "Downloading SimpCity", SimpCitySite, SimpCityThread(url));
    case Jpg5Route => SimpleOneJob(s, "Downloading from Jpg5", Jpg5Site, Jpg5Album(url));
    case InvalidRoute =>
  }

  /** Corrected, the general handler starts a thread or re-enables the buttons. */
  lemma {:induction false} GeneralRecovers(s: AppState, parsed: SplitUrl, downloadAll: bool)
    requires ExtractedMessageFormats(s.translations)
    ensures var r := HandleGeneral(s, parsed, downloadAll, false);
            r.jobs == s.jobs ==> r.widgets.download == Normal && r.widgets.cancel == Disabled
  {
    var s1 := Say(s, "Starting download...").(active := Some(GeneralSite));
    SayKeeps(s, "Starting download...");
    var p := ExtractCkParameters(parsed.path);
    if p.service.Some? && p.user.Some? {
      var extracted := Tr(s1.translations, ExtractedKey, ExtractedArgs(p.service.value, parsed.netloc));
      assert extracted.Some?;
      GeneralJobOneJob(s1, extracted, parsed.netloc, p.service.value, p.user.value, p.post, parsed.query, downloadAll);
    }
  }

  /**
   * With the general handler corrected, every call that starts no thread leaves the download
   * button usable: enabled again, or never disabled because no folder was chosen.
   */
  lemma {:induction false} StartDownloadRecovers(s: AppState, entry: string)
    requires s.downloadFolder != "" && ExtractedMessageFormats(s.translations)
    ensures var r := StartDownload(s, entry, false);
            r.jobs == s.jobs ==> r.widgets.download == Normal && r.widgets.cancel == Disabled
  {
    var url := Strip(entry);
    DispatchRecovers(s.(widgets := s.widgets.(download := Disabled, cancel := Normal), errors := []),
                     url, ChooseRoute(url), s.downloadAll);
  }

  lemma {:induction false} SliceIndex(s: string, i: int, n: int, k: int)
    ensures 0 <= i && 0 <= k < n && i + n <= |s| ==> s[i..i + n][k] == s[i + k]
  {
  }

  /** A character of `sub` that never occurs in `s` rules out `sub in s`. */
  lemma {:induction false} NotContainsWithout(s: string, sub: string, k: nat)
    requires k < |sub| && forall j :: 0 <= j < |s| ==> s[j] != sub[k]
    ensures !Contains(s, sub)
  {
    var r := IndexOf(s, sub);
    if r.Some? {
      SliceIndex(s, r.value, |sub|, k);
    }
  }

  const BareKemono := "https://kemono.su"

  ghost const BareKemonoParts := SplitUrl("https", "kemono.su", "", "", "")

  lemma {:induction false} BareKemonoPartsWellFormed()
    ensures WellFormed(BareKemonoParts)
  {
    HttpsSchemeWellFormed();
    KemonoHostPlain();
  }

  lemma {:induction false} HttpsSchemeWellFormed()
    ensures WellFormedScheme("https")
  {
    assert Lower("https") == "https";
  }

  lemma {:induction false} KemonoHostPlain()
    ensures forall j :: 0 <= j < |"kemono.su"| ==> !IsNetlocDelimiter("kemono.su"[j])
  {
  }

  lemma {:induction false} BareKemonoPartsUnsplit()
    ensures UrlUnsplit(BareKemonoParts) == BareKemono
  {
  }

  /** The URL `https://kemono.su` splits into its scheme and host with an empty path. */
  lemma {:induction false} BareKemonoSplits()
    ensures UrlParse(BareKemono).path == "" && UrlParse(BareKemono).netloc == "kemono.su"
  {
    BareKemonoPartsWellFormed();
    BareKemonoPartsUnsplit();
    UrlSplitOfUnsplit(BareKemonoParts);
  }

  /** A host rule cannot match a URL without the first letter of its name. */
  lemma {:induction false} NoHostRuleWithout(url: string, name: string)
    requires name != [] && forall j :: 0 <= j < |url| ==> url[j] != name[0]
    ensures !SearchHostRule(url, name)
  {
    SearchHostRuleContains(url, name);
    NotContainsWithout(url, name + ".", 0);
  }

  lemma {:induction false} BareKemonoLetters()
    ensures forall j :: 0 <= j < |BareKemono| ==> BareKemono[j] != 'b' && BareKemono[j] != 'r'
  {
  }

  lemma {:induction false} BareKemonoStrips()
    ensures Strip(BareKemono) == BareKemono
  {
    assert BareKemono[0] == 'h' && BareKemono[|BareKemono| - 1] == 'u';
    StripUnspaced(BareKemono);
  }

  /** The stripped entry `https://kemono.su` goes to the general handler with an empty path. */
  lemma {:induction false} BareKemonoRoute()
    ensures Strip(BareKemono) == BareKemono
    ensures ChooseRoute(BareKemono) == GeneralRoute
    ensures UrlParse(BareKemono).path == ""
  {
    BareKemonoStrips();
    NotContainsWithout(BareKemono, "erome.com", 1);
    BareKemonoLetters();
    NoHostRuleWithout(BareKemono, "bunkr");
    NoHostRuleWithout(BareKemono, "bunkrr");
    NoHostRuleWithout(BareKemono, "bunkrrr");
    BareKemonoSplits();
    ChooseGeneralRoute(BareKemono);
  }

  /**
   * As written, the entry `https://kemono.su` fails to yield a service, and the missing
   * `reset_download_buttons` leaves the download button disabled with no thread started and
   * nothing queued that would enable it again.
   */
  lemma {:induction false} BareKemonoStuckAsWritten(s: AppState)
    requires s.downloadFolder != ""
    ensures var r := StartDownload(s, BareKemono, true);
            r.jobs == s.jobs && r.queue == s.queue
            && r.widgets.download == Disabled && r.widgets.cancel == Normal
            && r.active == Some(GeneralSite)
  {
    BareKemonoRoute();
    assert ExtractCkParameters("") == NoParameters;
  }

  /** Corrected, the same entry logs the error and enables the download button again. */
  lemma {:induction false} BareKemonoRecoversCorrected(s: AppState)
    requires s.downloadFolder != ""
    ensures var r := StartDownload(s, BareKemono, false);
            r.jobs == s.jobs && r.widgets.download == Normal && r.widgets.cancel == Disabled
            && |r.dialogs| == |s.dialogs| + 1
  {
    BareKemonoRoute();
    assert ExtractCkParameters("") == NoParameters;
  }

  /** A single-post URL of coomer or kemono starts a single-post download of exactly that post. */
  lemma {:induction false} GeneralPostUrl(s: AppState, parsed: SplitUrl, service: string, user: string, post: string, asWritten: bool)
    requires IsSegment(service) && IsSegment(user) && IsSegment(post)
    requires parsed.path == "/" + service + ("/user/" + user + ("/post/" + post + ""))
    requires ExtractedMessageFormats(s.translations)
    ensures HandleGeneral(s, parsed, s.downloadAll, asWritten).jobs == s.jobs + [CkPost(parsed.netloc, service, user, post)]
    ensures HandleGeneral(s, parsed, s.downloadAll, asWritten).active == Some(GeneralSite)
  {
    CkParametersOfPostPath(service, user, post, "");
    assert Tr(s.translations, ExtractedKey, ExtractedArgs(service, parsed.netloc)).Some?;
  }

  /** A profile URL with `?q=T&o=N` starts a profile download with that search text and offset. */
  lemma {:induction false} GeneralProfileUrl(s: AppState, parsed: SplitUrl, service: string, user: string, text: string, n: nat, asWritten: bool)
    requires IsSegment(service) && IsSegment(user) && PlainQueryValue(text)
    requires parsed.path == "/" + service + ("/user/" + user + "")
    requires parsed.query == "q=" + text + "&o=" + NatToString(n)
    requires ExtractedMessageFormats(s.translations)
    ensures HandleGeneral(s, parsed, s.downloadAll, asWritten).jobs
            == s.jobs + [CkProfile(parsed.netloc, service, user, Some(text), s.downloadAll, n)]
  {
    CkParametersOfUserPath(service, user, "");
    CkQueryOfFields(text, n);
    assert Tr(s.translations, ExtractedKey, ExtractedArgs(service, parsed.netloc)).Some?;
  }

  // ---------------------------------------------------------------------------------------------
  // Cancelling and finishing

  /**
   * `cancel_download()`: an active downloader is asked to cancel and forgotten; without one a
   * note is logged. Either way the widgets are queued to be re-enabled.
   */
  function CancelDownload(s: AppState): AppState {
    var s1 := if s.active.Some? then s.(cancels := s.cancels + [s.active.value], active := None)
              else Say(s, "No active download to cancel.");
    EnableWidgets(s1)
  }

  /** What `wrapped_download` does when its download method returns or raises. */
  function DownloadFinished(s: AppState): AppState {
    EnableWidgets(s.(active := None))
  }

  /** After a cancel, once the queue has been drained, no downloader is active and the window is idle. */
  lemma {:induction false} CancelThenDrainIsIdle(s: AppState)
    ensures CancelDownload(s).active.None?
    ensures RunTasks(CancelDownload(s).widgets, CancelDownload(s).queue) == Idle
    ensures s.active.Some? ==> CancelDownload(s).cancels == s.cancels + [s.active.value]
  {
    var s1 := if s.active.Some? then s.(cancels := s.cancels + [s.active.value], active := None)
              else Say(s, "No active download to cancel.");
    EnableWidgetsRestores(s1.widgets, s1.queue);
  }

  // ---------------------------------------------------------------------------------------------
  // The window

  class App {
    var translations: map<string, string>
    var downloadFolder: string
    var downloadAll: bool
    var downloadImages: bool
    var downloadVideos: bool
    var errors: seq<string>
    var warnings: seq<string>
    var logText: string
    var dialogs: seq<(string, string)>
    var widgets: Widgets
    var queue: seq<Task>
    var active: Option<Site>
    var jobs: seq<Job>
    var cancels: seq<Site>

    function Snapshot(): AppState
      reads this
    {
      AppState(translations, downloadFolder, downloadAll, downloadImages, downloadVideos, errors, warnings,
               logText, dialogs, widgets, queue, active, jobs, cancels)
    }

    constructor(translations: map<string, string>, downloadFolder: string, downloadAll: bool, downloadImages: bool, downloadVideos: bool)
      ensures Snapshot() == AppState(translations, downloadFolder, downloadAll, downloadImages, downloadVideos,
                                     [], [], "", [], Idle, [], None, [], [])
    {
      this.translations := translations;
      this.downloadFolder := downloadFolder;
      this.downloadAll := downloadAll;
      this.downloadImages := downloadImages;
      this.downloadVideos := downloadVideos;
      errors := [];
      warnings := [];
      logText := "";
      dialogs := [];
      widgets := Idle;
      queue := [];
      active := None;
      jobs := [];
      cancels := [];
    }

    /** `load_translations(lang)`. */
    method SetLanguage(all: map<string, map<string, string>>, lang: string)
      modifies this
      ensures Snapshot() == old(Snapshot()).(translations := LoadTranslations(all, lang))
    {
      translations := LoadTranslations(all, lang);
    }

    /** `limit_log_lines()`. */
    method TrimLog()
      modifies this
      ensures Snapshot() == old(Snapshot()).(logText := LimitLogLines(old(logText)))
    {
      var lines := Split(logText, '\n');
      if |lines| > MaxLogLines {
        logText := Join(lines[|lines| - (MaxLogLines + 1)..]);
      }
    }

    method AddLogMessageSafe(message: string)
      modifies this
      ensures Snapshot() == AddLog(old(Snapshot()), message)
    {
      if Mentions(message, "error") {
        errors := errors + [message];
      }
      if Mentions(message, "warning") {
        warnings := warnings + [message];
      }
      logText := logText + message + "\n";
      TrimLog();
    }

    method LogErrorMessage(message: string)
      modifies this
      ensures Snapshot() == LogError(old(Snapshot()), message)
    {
      errors := errors + [message];
      AddLogMessageSafe("Error: " + message);
    }

    method LogWarningMessage(message: string)
      modifies this
      ensures Snapshot() == LogWarning(old(Snapshot()), message)
    {
      warnings := warnings + [message];
      AddLogMessageSafe("Warning: " + message);
    }

    method EnableWidgetsLater()
      modifies this
      ensures Snapshot() == EnableWidgets(old(Snapshot()))
    {
      queue := queue + EnableWidgetsTasks;
    }

    /** `check_update_queue()`: runs the queued tasks until the queue is empty. */
    method CheckUpdateQueue()
      modifies this
      ensures Snapshot() == old(Snapshot()).(widgets := RunTasks(old(widgets), old(queue)), queue := [])
    {
      while queue != []
        invariant RunTasks(widgets, queue) == RunTasks(old(widgets), old(queue))
        invariant Snapshot() == old(Snapshot()).(widgets := widgets, queue := queue)
        decreases |queue|
      {
        var task := queue[0];
        queue := queue[1..];
        match task
        case EnableDownload => widgets := widgets.(download := Normal);
        case DisableCancel => widgets := widgets.(cancel := Disabled);
        case EnableDownloadAll => widgets := widgets.(downloadAll := Normal);
      }
    }

    method StartDownloadThread(job: Job)
      modifies this
      ensures Snapshot() == StartThread(old(Snapshot()), job)
    {
      jobs := jobs + [job];
    }

    method HandleEromeDownload(url: string)
      modifies this
      ensures Snapshot() == HandleErome(old(Snapshot()), url)
    {
      ghost var s0 := Snapshot();
      AddLogMessageSafe(Lookup(translations, "Downloading Erome"));
      assert Snapshot() == Say(s0, "Downloading Erome");
      var profile := !Contains(url, "/a/");
      active := Some(EromeSite(profile));
      assert Snapshot() == Say(s0, "Downloading Erome").(active := Some(EromeSite(profile)));
      if Contains(url, "/a/") {
        ghost var s1 := Snapshot();
        AddLogMessageSafe(Lookup(translations, "Album URL"));
        assert Snapshot() == Say(s1, "Album URL");
        StartDownloadThread(EromeAlbum(url, downloadFolder, downloadImages, downloadVideos));
      } else {
        ghost var s1 := Snapshot();
        AddLogMessageSafe(Lookup(translations, "Profile URL"));
        assert Snapshot() == Say(s1, "Profile URL");
        StartDownloadThread(EromeProfile(url, downloadFolder, downloadImages, downloadVideos));
      }
    }

    method HandleBunkrDownload(url: string)
      modifies this
      ensures Snapshot() == HandleBunkr(old(Snapshot()), url)
    {
      ghost var s0 := Snapshot();
      AddLogMessageSafe(Lookup(translations, "Downloading Bunkr"));
      assert Snapshot() == Say(s0, "Downloading Bunkr");
      active := Some(BunkrSite);
      ghost var s1 := Snapshot();
      assert s1 == Say(s0, "Downloading Bunkr").(active := Some(BunkrSite));
      if Contains(url, "/v/") || Contains(url, "/i/") {
        AddLogMessageSafe(Lookup(translations, "Post URL"));
        assert Snapshot() == Say(s1, "Post URL");
        StartDownloadThread(BunkrPost(url));
      } else {
        AddLogMessageSafe(Lookup(translations, "Profile URL"));
        assert Snapshot() == Say(s1, "Profile URL");
        StartDownloadThread(BunkrProfile(url));
      }
    }

    method HandleGeneralDownload(parsed: SplitUrl, downloadAll: bool, asWritten: bool)
      modifies this
      ensures Snapshot() == HandleGeneral(old(Snapshot()), parsed, downloadAll, asWritten)
    {
      ghost var s0 := Snapshot();
      AddLogMessageSafe(Lookup(translations, "Starting download..."));
      assert Snapshot() == Say(s0, "Starting download...");
      active := Some(GeneralSite);
      ghost var s1 := Snapshot();
      assert s1 == Say(s0, "Starting download...").(active := Some(GeneralSite));
      var p := ExtractCkParameters(parsed.path);
      if p.service.None? || p.user.None? {
        ReportMissingParameters(asWritten);
      } else {
        var extracted := Tr(translations, ExtractedKey, ExtractedArgs(p.service.value, parsed.netloc));
        StartGeneralJob(extracted, parsed.netloc, p.service.value, p.user.value, p.post, parsed.query, downloadAll);
      }
    }

    method ReportMissingParameters(asWritten: bool)
      modifies this
      ensures Snapshot() == MissingParameters(old(Snapshot()), asWritten)
    {
      var message := Lookup(translations, "Could not extract necessary parameters from the URL.");
      ghost var s0 := Snapshot();
      AddLogMessageSafe(message);
      assert Snapshot() == AddLog(s0, message);
      dialogs := dialogs + [(Lookup(translations, "Error"), message)];
      if !asWritten {
        widgets := widgets.(download := Normal, cancel := Disabled);
      }
    }

    method StartGeneralJob(extracted: Option<string>, site: string, service: string, user: string,
                           post: Option<string>, query: string, downloadAll: bool)
      modifies this
      ensures Snapshot() == GeneralJob(old(Snapshot()), extracted, site, service, user, post, query, downloadAll)
    {
      if extracted.None? {
        return;
      }
      AddLogMessageSafe(extracted.value);
      ghost var s1 := Snapshot();
      if post.Some? {
        AddLogMessageSafe(Lookup(translations, "Downloading single post..."));
        assert Snapshot() == Say(s1, "Downloading single post...");
        StartDownloadThread(CkPost(site, service, user, post.value));
      } else {
        var (q, offset) := ExtractCkQuery(query);
        var note := if downloadAll then "Downloading all user content..." else "Downloading only posts from the provided URL...";
        AddLogMessageSafe(Lookup(translations, note));
        assert Snapshot() == Say(s1, note);
        StartDownloadThread(CkProfile(site, service, user, q, downloadAll, offset));
      }
    }

    /** `handle_gofile_download`, `handle_phica_download`, `handle_simpcity_download`, `handle_jpg5_download`. */
    method HandleSimpleDownload(note: string, site: Site, job: Job)
      modifies this
      ensures Snapshot() == HandleSimple(old(Snapshot()), note, site, job)
    {
      AddLogMessageSafe(Lookup(translations, note));
      active := Some(site);
      StartDownloadThread(job);
    }

    method StartDownloadFrom(entry: string, asWritten: bool)
      modifies this
      ensures Snapshot() == StartDownload(old(Snapshot()), entry, asWritten)
    {
      var url := Strip(entry);
      if downloadFolder == "" {
        dialogs := dialogs + [(Lookup(translations, "Error"), Lookup(translations, "Please select a download folder."))];
        return;
      }
      BeginDownload(url, asWritten);
    }

    /** `start_download` once a folder is chosen: the buttons flip, the errors are cleared, the URL is dispatched. */
    method BeginDownload(url: string, asWritten: bool)
      modifies this
      ensures Snapshot() == Dispatch(old(Snapshot()).(widgets := old(widgets).(download := Disabled, cancel := Normal), errors := []),
                                     url, ChooseRoute(url), old(downloadAll), asWritten)
    {
      ghost var s0 := Snapshot();
      widgets := widgets.(download := Disabled, cancel := Normal);
      errors := [];
      assert Snapshot() == s0.(widgets := s0.widgets.(download := Disabled, cancel := Normal), errors := []);
      DispatchTo(url, ChooseRoute(url), downloadAll, asWritten);
    }

    /** The `if`/`elif` chain of `start_download`, once the route is known. */
    method DispatchTo(url: string, route: Route, all: bool, asWritten: bool)
      modifies this
      ensures Snapshot() == Dispatch(old(Snapshot()), url, route, all, asWritten)
    {
      ghost var s1 := Snapshot();
      match route
      case EromeRoute => HandleEromeDownload(url);
      case BunkrRoute => HandleBunkrDownload(url);
      case GeneralRoute => HandleGeneralDownload(UrlParse(url), all, asWritten);
      case GofileRoute => HandleSimpleDownload("Downloading Gofile", GofileSite, GofileContent(url));
      case PhicaRoute => HandleSimpleDownload("Downloading Phica", PhicaSite, PhicaThread(url));
      case SimpCityRoute => HandleSimpleDownload("Downloading SimpCity", SimpCitySite, SimpCityThread(url));
      case Jpg5Route => HandleSimpleDownload("Downloading from Jpg5", Jpg5Site, Jpg5Album(url));
      case InvalidRoute =>
        AddLogMessageSafe(Lookup(translations, "Invalid URL"));
        assert Snapshot() == Say(s1, "Invalid URL");
        widgets := widgets.(download := Normal, cancel := Disabled);
    }

    method CancelActiveDownload()
      modifies this
      ensures Snapshot() == CancelDownload(old(Snapshot()))
    {
      if active.Some? {
        cancels := cancels + [active.value];
        active := None;
      } else {
        AddLogMessageSafe(Lookup(translations, "No active download to cancel."));
      }
      EnableWidgetsLater();
    }

    /** The `finally` part of `wrapped_download`. */
    method FinishDownload()
      modifies this
      ensures Snapshot() == DownloadFinished(old(Snapshot()))
    {
      active := None;
      EnableWidgetsLater();
    }
  }
}
