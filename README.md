# CoomerDL download core in Dafny

This project models the download logic of CoomerDLEnhanced, a desktop tool that fetches media from
several hosting sites. It covers four parts of the program.

- **The main window** (`app/ui.py`): the class `UiApp.App`.
  - `start_download` picks a handler for the entered URL by first-match host rules.
  - The `handle_*_download` handlers choose between the single-item and the collection download of a site.
  - Log messages are sorted into the error and warning lists, and the log panel is trimmed to its last 50 lines.
  - Widget updates are queued on the update queue and drained by `check_update_queue`.
  - Cancel and finish reset the widgets.
  - Module `UiParams` holds the pure helpers:
    - `extract_ck_parameters` and `extract_ck_query` for coomer/kemono URLs;
    - the host-rule table;
    - the IMAGES/VIDEOS classifier of `reorganize_files`;
    - the log-panel trimming.
- **The Bunkr downloader** (`downloader/bunkr.py`): the class `Bunkr.BunkrDownloader`.
  - `download_file` is a state machine: a cancel check, a skip of a file that already exists, and up to three attempts.
  - The retry delay doubles after each HTTP 429 ("Too Many Requests", section 4 of RFC 6585).
  - Any other error causes a fixed 3-second pause, except after the last attempt.
  - Each attempt streams chunks, reports progress, and removes the partial file on cancel.
  - The module also derives the post and profile folder names and `get_root_domain`.
- **The Gofile downloader** (`downloader/gofile.py`): the class `Gofile.GofileDownloader`.
  - The account token and the `wt` value are cached.
  - `descargar_gofile` asks for the content with a content id, a password hash and both cached values.
  - `_process_content` flattens the folder tree into one file request per leaf.
  - `download_file` skips an existing file, streams the body, and removes the partial file on cancel.
- **The Phica forum downloader** (`downloader/phica.py`): the class `Phica.Phica`.
  - Legacy Bunkr links are rewritten to `bunkr.ac`.
  - `generate_unique_file_name` names each file by a hash, and files are split into img/videos folders by extension.
  - Each page's links are collected, and the next-page links are followed until none is left or a cancel is seen.
  - Gofile links are downloaded once each through a set, and Bunkr links are dispatched after conversion.

Shared pieces:

| module | what it holds |
|---|---|
| `Naming` | `clean_filename` and `get_consistent_folder_name`, which Bunkr and Gofile define identically |
| `Translation` | `load_translations`, `tr` and the `str.format` substitution `tr` performs |
| `Urls` | the parts of `urllib.parse` and `os.path` the code uses: `urlsplit`, `urlparse` with its parameters, unsplit, `parse_qs`, `join`, `basename`, `dirname` |
| `Net` | responses as a status, a content length and a body of chunk events |
| `Text` | string helpers: `in`, `lower`, `strip`, `split`, `re.sub` over a character class |

How the environment is modelled:

- The network is a function from request to response.
  - Bunkr takes one response per attempt: `net: nat -> Response`.
  - Phica takes one response per URL, plus the sequence of thread pages.
  - Gofile takes one answer per endpoint.
- A response body is a sequence of `Data(n)` chunks and `Cancel` events. A `Cancel` stands for the window's Cancel button between two chunk reads. `cancel_download` then calls the downloader's `request_cancel` (ui.py:1069-1079), so the event sets `cancel_requested` and logs what `request_cancel` logs: "Download has been cancelled." and "Executor shut down." for Bunkr and Gofile, "Descarga cancelada por el usuario." for Phica.
- The file system is the set of paths that exist.
- MD5, SHA-256, `pathvalidate.sanitize_filename` and `urljoin` are function parameters. An MD5 digest is 32 lower-case hex characters.
- Sleeps are recorded as a sequence of waits:
  - `Backoff(d)` is the 429 branch;
  - `Pause(3)` is the other-error branch.
- A thread start is recorded as a job: the downloader and the arguments it was started with.
- The Tk `after(0, …)` and `update_queue` tasks are run in order.

Each class keeps its fields and a `Snapshot()` value of its whole state. Every method ensures `Snapshot()` equals a specification function of the old snapshot. The properties are proved as lemmas about those functions.

Behaviour of the code as written that the model keeps:

- `update_wt` keeps the text after the first `appdata.wt = "` up to the next `"` or the next copy of the marker, whichever comes first. This is what `split(marker)[1].split('"')[0]` does.
- Phica's `download_file` stops at a cancel but leaves the partial file in place.
- Every external href is appended to `external_links` twice: once converted (phica.py:159) and once raw (phica.py:193).
- `start_download` is the second definition, at ui.py:1226. Python keeps the later definition, so the one at ui.py:863 is dead code.

## Model

| member | source | states |
|---|---|---|
| UiParams.ExtractCkParameters | app/ui.py:34-42 | The service group is absent exactly when the path contains no `/` followed by a segment character, and then all three groups are absent. A user implies a service and a post implies a user. Every group that is present is a non-empty run without `/` or `?`. |
| UiParams.CkParametersOfPostPath | app/ui.py:38-41 | For the path `/S/user/U/post/P…`, where S, U and P are segments, the result is (S, U, P). |
| UiParams.CkParametersOfUserPath | app/ui.py:38-41 | For `/S/user/U` followed by anything that does not start with `/post/`, the result is (S, U, None). |
| UiParams.Segment | app/ui.py:38 | Takes the longest prefix made of characters other than `/` and `?`. The character after it, if any, is `/` or `?`. |
| UiParams.SegmentOf | app/ui.py:38 | A segment followed by a delimiter, or by nothing, is matched exactly. |
| UiParams.MatchAt | app/ui.py:38 | A match anchored at a `/` always has a service. A post implies a user, and every group that is present is a segment. |
| UiParams.WithService | app/ui.py:38 | The service is kept. The optional user group, and the post group inside it, are segments, and a post is only present with a user. |
| UiParams.WithUser | app/ui.py:38 | Service and user are kept. The optional post group is a segment. |
| UiParams.MatchAtOf | app/ui.py:38 | Matching `/S` followed by a non-segment character reads S as the service. |
| UiParams.WithServiceOf | app/ui.py:38 | After the service, `/user/U` followed by a delimiter reads U as the user. |
| UiParams.WithUserOf | app/ui.py:38 | After the user, `/post/P` followed by a delimiter reads P as the post. |
| UiParams.ExtractCkQuery | app/ui.py:44-51 | The query text is the value of the first `q` field, and absent when there is none. The offset is the value of the first `o` field read as a decimal number when that value is all digits, and 0 when the value is not all digits or there is no `o` field. |
| UiParams.FirstNamedUnique | app/ui.py:49-50 | `FirstValue` of a name is the value of the pair at the first position with that name, wherever that position is. |
| UiParams.CkQueryOfFields | app/ui.py:48-51 | `q=T&o=N` gives (T, N). |
| UiParams.CkQueryNegativeOffset | app/ui.py:50-51 | `q=T&o=-N` gives offset 0, because `-N` is not all digits. |
| UiParams.CkQueryWithoutOffset | app/ui.py:50-51 | `q=T` with no `o` field gives offset 0. |
| UiParams.QueryFieldOf | app/ui.py:48 | One `name=value` field of the query string parses to that pair. |
| UiParams.ParseTwoFields | app/ui.py:48 | Two `&`-separated fields parse to their two pairs, in order. |
| UiParams.ChooseRoute | app/ui.py:1243-1264 | For each of the seven rules in source order (Erome substring, the three Bunkr host patterns, coomer/kemono netloc, then the `gofile.io`, `phica.eu`, `simpcity.su` and `jpg5.su` substrings), the route is that rule's route exactly when the rule holds and no earlier rule holds. The route is "Invalid URL" exactly when no rule holds. |
| UiParams.RouteOfFirstRule | app/ui.py:1243-1264 | When rule k is the first that holds, or no rule holds and k is 7, the route of rule k (or Invalid) satisfies every equivalence of ChooseRoute. |
| UiParams.ChooseGeneralRoute | app/ui.py:1243-1252 | With no Erome substring and no Bunkr host rule, a coomer/kemono netloc routes to the general handler. The rules are tried first-match in source order. |
| UiParams.BunkrRuleRoutesToBunkr | app/ui.py:1243-1250 | If the URL has no `erome.com` and any of the three Bunkr host patterns matches, the Bunkr handler is chosen. |
| UiParams.BunkrHostRoutesToBunkr | app/ui.py:1245-1250 | `https://bunkr.TLD…`, `https://bunkrr.TLD…` and `https://bunkrrr.TLD…`, where the top-level domain starts with two lower-case letters, route to Bunkr. |
| UiParams.BunkrSubdomainRoutesToBunkr | app/ui.py:1245-1250 | The same holds with one `[a-z0-9-]+.` subdomain label in front of the host. |
| UiParams.NameAndTldOf | app/ui.py:1245 | `name.` followed by two lower-case letters matches the `name\.[a-z]{2,}` part of a host rule. |
| UiParams.HttpsHostRule | app/ui.py:1245 | A host match at the start of what follows `https://` is found by the `re.search` host rule. |
| UiParams.SearchHostRuleContains | app/ui.py:1245-1250 | Whenever a host rule for `name` matches, the URL contains `name.`. |
| UiParams.HostRuleAtContains | app/ui.py:1245 | A match anchored at one position also implies the URL contains `name.`. |
| UiParams.HostAtPosition | app/ui.py:1245 | A host match gives a position where `name.` occurs. |
| UiParams.LabelLength | app/ui.py:1245 | Measures the longest run of `[a-z0-9-]` characters at the start of the text. |
| UiParams.LabelLengthOf | app/ui.py:1245 | A label followed by a non-label character has exactly its own length. |
| UiParams.ReorganizeDestination | app/ui.py:297-307 | IMAGES only if the lowered name ends with an image extension, VIDEOS only if it ends with a video extension, and no destination only if it ends with neither. |
| UiParams.ImageFileGoesToImages | app/ui.py:288-301 | A name whose lowered tail is an image extension goes to IMAGES, whatever its case. |
| UiParams.VideoFileGoesToVideos | app/ui.py:288-304 | A name whose lowered tail is a video extension goes to VIDEOS. The two lists share no suffix, so the image test cannot catch it first. |
| UiParams.NameWithoutDotStays | app/ui.py:305-307 | A name with no `.` is skipped. |
| UiParams.ExtensionListsDisjoint | app/ui.py:288-289 | No extension appears in both tuples. |
| UiParams.ExtensionsAreDotted | app/ui.py:288-289 | Every listed extension is a `.` followed by one or more ASCII letters or digits. |
| UiParams.SameExtension | app/ui.py:299-304 | Two dotted extensions with no inner dot that both end a name are equal. This is why at most one list entry matches. |
| UiParams.LimitLogLinesKeepsRecent | app/ui.py:683-691 | After trimming, the text splits into at most 51 pieces: the trailing empty piece plus 50 lines. These are a suffix of the pieces before trimming, so only the oldest lines are deleted. |
| UiParams.LimitLogLinesShowsRecent | app/ui.py:683-691 | For a log whose every line ends in a newline, at most 50 lines are shown after trimming. They are the most recent lines, in order, and the text still ends with a newline. |
| UiParams.LongLogShowsRecent | app/ui.py:688-690 | The branch that deletes `len(lines) - 50` lines. |
| UiParams.ShortLogShowsAll | app/ui.py:688 | The branch with at most 50 pieces leaves the log unchanged. |
| UiParams.LimitLogLinesLong | app/ui.py:690 | Deleting up to line `n - 50` keeps the last 51 split pieces. |
| UiParams.KeptPieces | app/ui.py:687-690 | The kept text re-splits into exactly the kept pieces. |
| UiParams.LimitLogLinesTerminated | app/ui.py:683-691 | Trimming keeps the text ending in a newline. |
| UiParams.AppendLine | app/ui.py:676 | Inserting `message + "\n"` into a newline-terminated log shows exactly one more line, the message. |
| UiParams.SplitJoin | app/ui.py:687 | Splitting joined lines that have no newline gives the lines back. |
| UiParams.JoinSplit | app/ui.py:687 | Joining the pieces of a split with newlines gives the text back. |
| UiParams.TerminatedText | app/ui.py:687 | A newline-terminated text splits into its shown lines plus one trailing empty piece. |
| UiParams.SplitTerminated | app/ui.py:687 | A text ending in a newline splits into at least two pieces, and the last is empty. |
| UiParams.JoinSnoc | app/ui.py:676 | Joining one more line appends a newline and that line. |
| UiParams.SplitLinesAndMessage | app/ui.py:676 | Lines followed by a message line and an empty piece re-split to themselves. |
| UiParams.JoinTerminated | app/ui.py:687 | Pieces that end in an empty piece join to a newline-terminated text. |
| UiParams.PiecesHaveNoNewline | app/ui.py:687 | No piece of `split("\n")` contains a newline. |
| UiParams.SplitJoinSuffix | app/ui.py:690 | A suffix of pieces re-splits to itself. |
| UiParams.KeptSplitJoin | app/ui.py:690 | The same holds for the suffix the trimming keeps. |
| UiParams.DisplayedOf | app/ui.py:687 | The shown lines are all the pieces but the last. |
| UiParams.LastButOne | app/ui.py:690 | A kept suffix of the pieces, without its last piece, is a suffix of the shown lines of at most 50 lines. |
| Text.Lower | app/ui.py:669-671 | `str.lower` on ASCII: same length, each letter lowered and every other character kept. |
| Text.LowerIdempotent | app/ui.py:669-671 | Lowering twice is lowering once. |
| Text.LowerAppend | app/ui.py:669-671 | Lowering distributes over concatenation. |
| Text.Strip | app/ui.py:1230 | `str.strip` gives a text that neither starts nor ends with white space and is found inside the input, with only white space before and after it. |
| Text.StripAt | app/ui.py:1230 | The result of trimming both ends sits in the input right after the leading white space, with only white space around it. |
| Text.StripUnspaced | app/ui.py:1230 | A text that neither starts nor ends with white space is left unchanged. |
| Text.TrimLeft | app/ui.py:1230 | Drops a prefix made only of white space and keeps the rest, which does not start with white space. |
| Text.TrimRight | app/ui.py:1230 | Drops a suffix made only of white space and keeps the rest, which does not end with white space. |
| Text.IndexOf | app/ui.py:1243 | Returns the first position where the substring occurs, or none only when it occurs nowhere. This is Python's `in` on strings. |
| Text.IndexOfChar | downloader/gofile.py:94 | Returns the first occurrence of the character, or none when it is absent. |
| Text.LastIndexOfChar | downloader/gofile.py:103 | Returns the last occurrence of the character, or none when it is absent. |
| Text.ContainsStep | app/ui.py:1243 | A text contains a substring exactly when it starts with it or its tail contains it. |
| Text.ContainsAt | app/ui.py:1243 | An occurrence at any position makes `in` true. |
| Text.ContainsInAppend | downloader/phica.py:156 | An occurrence in either half is an occurrence in the concatenation. |
| Text.Split | app/ui.py:687 | `str.split(sep)` yields at least one piece, and no piece contains the separator. |
| Text.SplitAtSeparator | app/ui.py:687 | A separator-free prefix and a separator split off as the first piece. |
| Text.SplitOfSeparatorFree | app/ui.py:687 | A separator-free text is one piece. |
| Text.NatToString | app/ui.py:51 | The rendering of a natural number is all digits. |
| Text.DecimalValueOfNatToString | app/ui.py:51 | Reading back the rendering of a natural number, as `int(o)` does, gives the number. |
| Text.ReplaceEach | downloader/bunkr.py:76 | `re.sub` over a character class keeps the length, replaces each character of the class and keeps every other one. |
| Text.ReplaceEachRemovesBad | downloader/bunkr.py:76 | When the replacement is not in the class, no class character remains. |
| Text.ReplaceEachIdempotent | downloader/bunkr.py:76 | In that case replacing twice is replacing once. |
| Text.ReplaceEachKeepsClean | downloader/bunkr.py:76 | A text with no class character is unchanged. |
| Text.ReplaceEachAppend | downloader/bunkr.py:76 | The replacement distributes over concatenation. |
| Text.DigitChar | app/ui.py:51 | Each digit value has a digit character with that value. |
| Urls.UrlSplitOfUnsplit | downloader/phica.py:51-58 | Unsplitting a well-formed split URL that has a netloc and splitting it again gives the same five parts. |
| Urls.ReplaceNetloc | downloader/phica.py:58 | `parsed._replace(netloc=n).geturl()` re-parses to the old parts with only the netloc replaced. |
| Urls.UrlSplitWellFormed | app/ui.py:1241 | Every split URL is well formed. The scheme is valid and the netloc has no `/`, `?` or `#`. The path has no `?` or `#` and the query has no `#`. When there is a netloc, the path is empty or starts with `/`. |
| Urls.SplitScheme | app/ui.py:1241 | The scheme part is always a valid scheme, possibly empty. |
| Urls.SchemeLength | app/ui.py:1241 | A scheme is found only when it starts with a letter, every character is a scheme character, and a `:` follows it. |
| Urls.SplitNetloc | app/ui.py:1241 | The netloc has no `/`, `?` or `#`. The rest starts with one of them. |
| Urls.NetlocEnd | app/ui.py:1241 | The netloc ends at the first delimiter. |
| Urls.SplitFirst | downloader/gofile.py:94 | Splitting at the first occurrence of a character gives a head without it. When the character occurs, the input is head, character, tail. |
| Urls.NetlocOccurs | app/ui.py:1251 | The netloc is a substring of the URL. |
| Urls.FirstValue | app/ui.py:49-50 | `query.get(name, [d])[0]`: a value is found exactly when some pair has that name, and it is the value of the first such pair. |
| Urls.Basename | downloader/bunkr.py:93 | The base name has no `/` and ends the path. |
| Urls.JoinThenSplit | downloader/gofile.py:135-140 | For a directory with no trailing slash and a name with no `/`, `dirname(join(d, n)) == d` and `basename(join(d, n)) == n`. |
| Urls.SplitSchemeOf | app/ui.py:1241 | `scheme://rest` splits back to the scheme and the rest. |
| Urls.SplitNetlocOf | app/ui.py:1241 | `//netloc` followed by a delimiter splits back to the netloc. |
| Urls.FragmentAndQuery | app/ui.py:1241 | The part after the netloc splits back to path, query and fragment. |
| Urls.UrlParse | app/ui.py:1241 | `urlparse` keeps the scheme, netloc, query and fragment of `urlsplit`. For a scheme in `uses_params` its path is a prefix of the split path with no `;` in its last segment. For any other scheme the path is the split path. |
| Urls.UrlParams | downloader/phica.py:51 | The parameters `urlparse` takes off the path contain no `/`. |
| Urls.SplitParams | downloader/bunkr.py:93 | A path with no `;` in its last segment has no parameters. Otherwise the path is the head, a `;` and the parameters, with no `;` left in the head's last segment and no `/` in the parameters. |
| Urls.LastSegmentStart | downloader/bunkr.py:93 | The last segment starts at the last `/`, or at 0; no `/` follows it. |
| Urls.SplitParamsOf | downloader/bunkr.py:93 | For a head with no `;` in its last segment and parameters with no `/`, `head;params` splits back to the head and the parameters. |
| Urls.UrlParseCutsParams | downloader/phica.py:254-255 | For an `http`-like scheme and a split path `head;params`, the parsed path is the head and the parameters are the rest. |
| Urls.ReparseReplaced | downloader/phica.py:51-58 | `urlparse(url)._replace(netloc=n).geturl()` parses again to the old parts and parameters with only the netloc replaced. |
| Urls.LastIndexOfCharAppend | downloader/bunkr.py:93 | Appending text without a character keeps that character's last position. |
| Translation.LoadTranslations | app/ui.py:540-547 | The table has the same keys as the file. Each key maps to its text in the chosen language, or to itself when that language is missing. |
| Translation.LookupLoaded | app/ui.py:547-553 | `tr(text)` without arguments is the text in the chosen language when the file has it, and the text itself otherwise. |
| Translation.Tr | app/ui.py:549-556 | Without keyword arguments, `tr` is a plain lookup. A looked-up text with no braces is returned unchanged even when arguments are given. |
| Translation.FormatBraceFree | app/ui.py:555 | `str.format` leaves a template with no braces unchanged. |
| Translation.FormatField | app/ui.py:555 | `{name}` is replaced by its argument. A name with no argument is an error, which Python raises as `KeyError`. |
| Translation.FormatTwoFields | app/ui.py:555 | A template with two fields gets both arguments substituted in place. |
| Translation.FormatBraceFreePrefix | app/ui.py:555 | A brace-free prefix is copied through formatting. |
| UiApp.MentionsIsContains | app/ui.py:669-671 | `"error" in message.lower()` is the substring test on the lowered message. |
| UiApp.AddLogClassifies | app/ui.py:665-672 | The message is appended to the errors list exactly when its lowered text contains "error". It is appended to the warnings list exactly when the lowered text contains "warning". Nothing but those lists and the log text changes. |
| UiApp.AddLogShowsMessage | app/ui.py:674-679 | After the insert and the trim, the log panel ends with the new message. It shows at most 50 lines, and they are the most recent ones. |
| UiApp.LogErrorRecordsTwice | app/ui.py:1335-1340 | `log_error` appends the bare message and then, through `add_log_message_safe`, the `"Error: "` line, so the message reaches the errors list twice. The warnings list gains the line only if it mentions "warning". |
| UiApp.LogWarningRecordsTwice | app/ui.py:1342-1347 | `log_warning` appends its message twice to the warnings list in the same way. |
| UiApp.PrefixTagged | app/ui.py:669-672 | A message whose prefix lowers to the tag word is always classified under that tag. |
| UiApp.WarningPrefixLower | app/ui.py:1347 | `"Warning: "` lowers to a text starting with "warning". |
| UiApp.ErrorPrefixLower | app/ui.py:1340 | `"Error: "` lowers to a text starting with "error". |
| UiApp.LowerCapitalised | app/ui.py:669-671 | Lowering a word whose only capital is its first letter changes only that letter. |
| UiApp.RunTasksAppend | app/ui.py:790-792 | Draining a queue runs its tasks in order: running `a + b` is running `a` and then `b`. |
| UiApp.EnableWidgetsRestores | app/ui.py:795-801 | Whatever is queued before them, the three `enable_widgets` tasks leave the download button normal, the cancel button disabled and the "download all" box normal once the queue is drained. |
| UiApp.StartDownloadNeedsFolder | app/ui.py:1231-1233 | With no download folder, `start_download` shows one error dialog and changes nothing else. No handler runs. |
| UiApp.StartDownloadOneJob | app/ui.py:1226-1264 | A start launches at most one download thread and leaves the earlier jobs in place. When a thread is started, a downloader is active, the download button is disabled and the cancel button is enabled. No queued task or cancel is added. |
| UiApp.DispatchOneJob | app/ui.py:1243-1264 | Every route starts at most one job. |
| UiApp.EromeOneJob | app/ui.py:947-963 | The Erome handler always starts exactly one job: the album download when the URL contains `/a/`, else the profile download. |
| UiApp.BunkrOneJob | app/ui.py:965-980 | The Bunkr handler always starts exactly one job: the post download for `/v/` or `/i/`, else the profile download. |
| UiApp.SimpleOneJob | app/ui.py:897-1033 | The Phica, Gofile, SimpCity and Jpg5 handlers each start exactly one job. |
| UiApp.GeneralOneJob | app/ui.py:982-1011 | The general handler starts at most one job. |
| UiApp.GeneralJobOneJob | app/ui.py:992-1011 | Past the parameter check, a job is started exactly when the "Extracted service" message could be formatted. |
| UiApp.GeneralPostUrl | app/ui.py:990-1011 | A `/S/user/U/post/P` path starts the single-post download with (netloc, S, U, P), and the general downloader is active. |
| UiApp.GeneralProfileUrl | app/ui.py:1005-1011 | A `/S/user/U` path with query `q=T&o=N` starts the profile download with (netloc, S, U, T, download-all flag, N). |
| UiApp.LogTwiceThenStart | app/ui.py:1035-1040 | Two log lines and a thread start add exactly that one job and set the active downloader. |
| UiApp.SayKeeps | app/ui.py:665-681 | Logging a message changes no job, queue, cancel, widget, dialog or setting. |
| UiApp.DispatchRecovers | app/ui.py:1243-1264 | In the corrected program, every outcome that starts no job leaves the download button normal and the cancel button disabled. |
| UiApp.GeneralRecovers | app/ui.py:992-997 | The same holds for the corrected general handler. |
| UiApp.StartDownloadRecovers | app/ui.py:1226-1264 | The same holds for the corrected `start_download` once a folder is set. |
| UiApp.BareKemonoRoute | app/ui.py:1230-1252 | `https://kemono.su` is already stripped, routes to the general handler, and has an empty path. |
| UiApp.BareKemonoStuckAsWritten | app/ui.py:992-997 | As written, `https://kemono.su` starts no job and queues nothing, yet leaves the download button disabled, the cancel button enabled and the general downloader active. |
| UiApp.BareKemonoRecoversCorrected | app/ui.py:992-997 | With the buttons reset, the same URL starts no job, shows one error dialog, and leaves the download button normal and the cancel button disabled. |
| UiApp.BareKemonoSplits | app/ui.py:990-991 | The URL splits to netloc `kemono.su` and an empty path. |
| UiApp.ExtractedMessageUntranslated | app/ui.py:999 | With no translation for the key, the message formats to "Extracted service: S from site: H". |
| UiApp.CancelThenDrainIsIdle | app/ui.py:1069-1079 | After a cancel, no downloader is active. Once the queue is drained, the widgets are back to idle. If a downloader was active, its `request_cancel` is recorded. |
| UiApp.App.constructor | app/ui.py:53-55 | A new window starts with empty lists, an empty log, idle widgets and no active downloader. |
| UiApp.App.SetLanguage | app/ui.py:540-547 | Replaces the translation table with the one loaded for the language and changes nothing else. |
| UiApp.App.TrimLog | app/ui.py:683-691 | Replaces the log text by its trimmed form. |
| UiApp.App.AddLogMessageSafe | app/ui.py:665-681 | Leaves the window in the state `AddLog` gives. The properties are proved in AddLogClassifies and AddLogShowsMessage. |
| UiApp.App.LogErrorMessage | app/ui.py:1335-1340 | Leaves the window in the `LogError` state; see LogErrorRecordsTwice. |
| UiApp.App.LogWarningMessage | app/ui.py:1342-1347 | Leaves the window in the `LogWarning` state; see LogWarningRecordsTwice. |
| UiApp.App.EnableWidgetsLater | app/ui.py:795-801 | Queues the three widget tasks after the pending ones. |
| UiApp.App.CheckUpdateQueue | app/ui.py:786-793 | The `while not empty` loop runs every queued task in order on the widgets and leaves the queue empty. |
| UiApp.App.StartDownloadThread | app/ui.py:1035-1040 | Records the started job. |
| UiApp.App.HandleEromeDownload | app/ui.py:947-963 | Follows `HandleErome`: a log line, the Erome downloader made active, the album or profile line, then one job. |
| UiApp.App.HandleBunkrDownload | app/ui.py:965-980 | Follows `HandleBunkr`: the post or profile branch on `/v/` or `/i/`. |
| UiApp.App.HandleGeneralDownload | app/ui.py:982-1011 | Follows `HandleGeneral`: the parameter check, then the post or profile job. |
| UiApp.App.ReportMissingParameters | app/ui.py:993-997 | Logs the error, shows the dialog, and resets the buttons only in the corrected variant. |
| UiApp.App.StartGeneralJob | app/ui.py:999-1011 | Logs the "Extracted service" line and starts the post or profile job. |
| UiApp.App.HandleSimpleDownload | app/ui.py:897-1033 | One log line, the downloader made active, one job. |
| UiApp.App.StartDownloadFrom | app/ui.py:1226-1264 | Follows `StartDownload`: the folder check, the button change, the cleared error list, then the first-match dispatch. |
| UiApp.App.BeginDownload | app/ui.py:1235-1264 | Disables the download button, enables cancel, clears the errors, and dispatches on `ChooseRoute`. |
| UiApp.App.DispatchTo | app/ui.py:1243-1264 | Runs the handler of the chosen route. An invalid URL logs "Invalid URL" and resets both buttons. |
| UiApp.App.CancelActiveDownload | app/ui.py:1069-1079 | Follows `CancelDownload`; see CancelThenDrainIsIdle. |
| UiApp.App.FinishDownload | app/ui.py:1282-1291 | The `finally` of `wrapped_download`: no active downloader and the `enable_widgets` tasks queued. |
| Naming.CleanFilename | downloader/bunkr.py:75-76 | Keeps the length. Each of `<>:"/\|?*` and U+200B becomes `_`, every other character is kept, and no forbidden character remains. |
| Naming.CleanFilenameIdempotent | downloader/bunkr.py:75-76 | Cleaning twice is cleaning once. |
| Naming.UrlHash8 | downloader/bunkr.py:80 | The first eight characters of the MD5 hex digest are eight hex characters. |
| Naming.ConsistentFolderName | downloader/bunkr.py:78-82 | The result is the cleaned name followed by `_` and the eight-character URL hash, nine characters longer than the name. |
| Naming.ConsistentFolderNameEquality | downloader/bunkr.py:78-82 | Two folder names are equal exactly when the cleaned names are equal and the URL hashes are equal. So the same post and title always give the same folder, which is what makes skip-if-exists act as resume. |
| Naming.ConsistentFolderNameOfClean | downloader/gofile.py:70-73 | For a name with no forbidden character, the result is `name + "_" + hash`. |
| Bunkr.RootDomainKeepsSchemeAndHost | downloader/bunkr.py:13-15 | `get_root_domain` re-parses to the URL's own scheme and netloc with an empty path, query and fragment. |
| Bunkr.SplitOfRoot | downloader/bunkr.py:15 | `scheme://netloc` splits back to exactly those two parts. |
| Bunkr.LogLines | downloader/bunkr.py:60-64 | Each buffered line is `domain: message`. The message is looked up in the translations, and the domain is the URL's netloc or "General". |
| Bunkr.CancelledAtEntry | downloader/bunkr.py:89-91 | With cancel set at entry, `download_file` only logs "Descarga cancelada". It sends no request, makes no change to files or counters, and does not wait. |
| Bunkr.ExistingFileSkipped | downloader/bunkr.py:96-101 | When the file exists, no request is sent and no file or progress changes. There is no wait. `completed_files` goes up by exactly one, and that count is reported to the global progress. |
| Bunkr.DownloadAttempts | downloader/bunkr.py:93-105 | Otherwise the call is the retry loop from attempt 0 with delay 1, on the path `folder/basename(urlparse(url).path)`. |
| Bunkr.FileNameOf | downloader/bunkr.py:93 | The saved name is the last segment of the path `urlparse` gives, so it has no `/`. |
| Bunkr.FileNameDropsParams | downloader/bunkr.py:93 | For `…/dir/name;params` over an `http`-like scheme, the saved name is `name`: the parameters are not part of it. |
| Bunkr.DownloadCountsAtMostOnce | downloader/bunkr.py:84-142 | A call sends at most three requests and raises `completed_files` by at most one. A raise happens only when the file is then on disk. The reported progress within the call never decreases. |
| Bunkr.AttemptsRequests | downloader/bunkr.py:103-108 | The loop from attempt k sends at most `3 - k` requests, all for the same URL. |
| Bunkr.AttemptsCountFile | downloader/bunkr.py:114-132 | The loop either completes the file (count up by one, file present) or leaves the count and the file system as they were. No other file is touched. |
| Bunkr.AttemptsWaits | downloader/bunkr.py:134-142 | The loop only appends waits. Its backoff waits are the doubling sequence d, 2d, 4d, … from the starting delay. Every other wait is 3 seconds, and there are no more waits than requests. |
| Bunkr.ThreeRateLimits | downloader/bunkr.py:103-138 | Three answers of 429 give waits of 1, 2 and 4 seconds after three requests, and no file is counted. A 429 uses up one of the three attempts. |
| Bunkr.ThreeOtherErrors | downloader/bunkr.py:139-142 | Three other errors give two 3-second pauses, none after the last attempt, and three requests with no file counted. |
| Bunkr.RetriesAllFail | downloader/bunkr.py:103-142 | When every remaining attempt fails, the waits are exactly the failure waits of those attempts. Each attempt sends one request, and the count and file system do not change. |
| Bunkr.AfterErrorWaits | downloader/bunkr.py:134-142 | One failed attempt adds at most one wait. A 429 waits the current delay and doubles it. Any other error keeps the delay and pauses 3 seconds only before attempts 1 and 2. |
| Bunkr.FailedAttemptWaits | downloader/bunkr.py:134-142 | The waits one failure adds are the head of the failure waits from that attempt. |
| Bunkr.AttemptFails | downloader/bunkr.py:105-142 | A failing attempt continues with the next attempt and the new delay. |
| Bunkr.AttemptStreams | downloader/bunkr.py:108-132 | A successful response opens the file and streams it. A finished stream completes the download and ends the loop. |
| Bunkr.CancelBeforeChunk | downloader/bunkr.py:66-73 | A cancel before a chunk logs "Download has been cancelled." and "Executor shut down.", then the mid-file note; the file is removed, no progress is reported and the stream does not finish. |
| Bunkr.StreamReports | downloader/bunkr.py:114-125 | The reported `downloaded_size` values are the running sums of the chunk lengths. A stream that does not finish has removed the file. A stream with no cancel, before or during, always finishes. No request, wait or counter changes. |
| Bunkr.StreamOutcomeHolds | downloader/bunkr.py:114-125 | The same outcome holds for streaming from any starting size. |
| Bunkr.StreamProgressMonotone | downloader/bunkr.py:122-124 | Progress reported while streaming never decreases. |
| Bunkr.AttemptsProgressMonotone | downloader/bunkr.py:103-132 | Across all attempts of one call the reported progress never decreases, since each new stream starts after a failed request. |
| Bunkr.DoublingIncreases | downloader/bunkr.py:138 | From a delay of at least 1, the backoff delays strictly increase and are never below the first. |
| Bunkr.BackoffSecondsAppend | downloader/bunkr.py:137 | The backoff seconds of two runs of waits are those of each run, in order. |
| Bunkr.PostFolderName | downloader/bunkr.py:153-162 | The post folder is at most 59 characters: 50 of title and 9 of `_hash`. It ends with `_` and the URL hash. |
| Bunkr.ProfileFolderName | downloader/bunkr.py:198-206 | The profile folder ends with the URL hash. With no title, it is `bunkr_profile_` followed by the hash. |
| Bunkr.DefaultNameIsClean | downloader/bunkr.py:159-203 | The default names contain no forbidden character. |
| Bunkr.Repeat | downloader/bunkr.py:108 | The repeated requests are k copies of the URL. |
| Bunkr.BunkrDownloader.constructor | downloader/bunkr.py:18 | A new downloader has no cancel, zero counters and empty buffers. |
| Bunkr.BunkrDownloader.Log | downloader/bunkr.py:60-64 | Appends one entry with the netloc of the URL, or "General". |
| Bunkr.BunkrDownloader.LogAt | downloader/bunkr.py:60-64 | Appends one entry with the given domain. |
| Bunkr.BunkrDownloader.RequestCancel | downloader/bunkr.py:66-73 | Sets the cancel flag and logs the cancel and shutdown messages. |
| Bunkr.BunkrDownloader.StreamChunks | downloader/bunkr.py:114-125 | The chunk loop follows `Stream`: it adds progress per chunk, a cancel calls `request_cancel`, and a chunk found with the flag set logs, removes the file and reports unfinished. See StreamReports and CancelBeforeChunk. |
| Bunkr.BunkrDownloader.SaveResponse | downloader/bunkr.py:111-132 | Opens the file, streams it, and on a finished stream logs completion and counts the file. |
| Bunkr.BunkrDownloader.AttemptFailed | downloader/bunkr.py:134-142 | The `except` branch follows `AfterError` and returns the next delay. See AfterErrorWaits. |
| Bunkr.BunkrDownloader.FileCompleted | downloader/bunkr.py:126-131 | Logs twice, counts the file and reports the global progress. |
| Bunkr.BunkrDownloader.RetryLoop | downloader/bunkr.py:103-142 | The `for attempt in range(3)` loop follows `Attempts` from attempt 0 with delay 1. |
| Bunkr.BunkrDownloader.DownloadFile | downloader/bunkr.py:84-142 | Follows `Download`. The properties are proved in CancelledAtEntry, ExistingFileSkipped, DownloadCountsAtMostOnce, ThreeRateLimits and ThreeOtherErrors. |
| Gofile.ProcessContentIsLeaves | downloader/gofile.py:126-136 | Processing a content tree issues exactly one request per file leaf, in tree order. Its path is the base joined with every sanitized folder name on the way down and the sanitized file name, and its link is the leaf's own. Folders issue none. |
| Gofile.ProcessChildrenIsLeaves | downloader/gofile.py:131-132 | Every child of a folder is visited, in order. |
| Gofile.RequestsForUnder | downloader/gofile.py:128-132 | Descending into a folder is the same as joining its sanitized name onto the base. |
| Gofile.RequestForUnder | downloader/gofile.py:128-129 | The same holds for one leaf. |
| Gofile.RequestsForAppend | downloader/gofile.py:131-132 | The requests of two lists of leaves are concatenated. |
| Gofile.ContentId | downloader/gofile.py:103 | `url.split("/")[-1]` has no `/` and ends the URL, and a `/` precedes it unless it is the whole URL. |
| Gofile.ContentIdOfLink | downloader/gofile.py:103 | For `prefix/id`, the content id is `id`. |
| Gofile.ExtractWt | downloader/gofile.py:93-94 | The extracted `wt` has no `"` and is a prefix of the text after the marker. |
| Gofile.WtBetweenMarkerAndQuote | downloader/gofile.py:93-94 | For `pre + 'appdata.wt = "' + w + '"' + tail`, with no quote in `pre` and no quote or space in `w`, the result is exactly `w`. |
| Gofile.MarkerAt | downloader/gofile.py:93 | The marker is found at the end of a quote-free prefix. |
| Gofile.PieceOfToken | downloader/gofile.py:94 | The piece before the next quote is the token. |
| Gofile.TokenCached | downloader/gofile.py:75-76 | With a token set, `update_token` changes nothing: no request and no log. |
| Gofile.TokenFetched | downloader/gofile.py:76-86 | With no token, one account request is sent. The token is set only on status 200 with `"ok"`, and one log line is added. |
| Gofile.WtCached | downloader/gofile.py:88-89 | With `wt` set, `update_wt` changes nothing. |
| Gofile.WtFetched | downloader/gofile.py:89-99 | With no `wt`, one script request is sent. The value is set only on status 200 with the marker present, and it then is a quote-free prefix of the text after the marker. |
| Gofile.UpdatedTokenFacts | downloader/gofile.py:75-86 | `update_token` sends at most the account request and touches only the token and the log. A token once set never changes. |
| Gofile.UpdatedWtFacts | downloader/gofile.py:88-99 | `update_wt` sends at most the script request and touches only `wt` and the log. A `wt` once set never changes. |
| Gofile.PreparedCalls | downloader/gofile.py:104-105 | The two updates send the account request, then the script request, each only when its value is unset, and keep values already set. |
| Gofile.DescargarAsks | downloader/gofile.py:101-124 | `descargar_gofile` sends exactly one contents request, after the two updates. It carries the content id, the current `wt` and token, and the password hash, and the hash is empty without a password. Every later request is a file download. |
| Gofile.NotGrantedDownloadsNothing | downloader/gofile.py:112-122 | When the answer is not status 200 with `"ok"` and `passwordOk`, nothing is downloaded. The file system and progress are unchanged, and only the contents request was sent. |
| Gofile.GrantedDownloadsEachFile | downloader/gofile.py:112-136 | When access is granted and the target paths are new and distinct, the requests are the contents request followed by one file download per leaf of the tree, in order, all with the current token. |
| Gofile.ContentsHandledCalls | downloader/gofile.py:112-122 | Handling the answer only appends file downloads and keeps both cached values. |
| Gofile.CancelBeforeChunk | downloader/gofile.py:58-65 | A cancel before a chunk logs "Download has been cancelled." and "Executor shut down.", then the mid-file note under the link's domain; the file is removed, no progress is reported and the stream does not finish. |
| Gofile.StreamFacts | downloader/gofile.py:146-163 | Reported progress is the running sum of chunk sizes. A stream that does not finish removes the file. With no cancel, the stream finishes. No request is sent and the cached values do not change. |
| Gofile.FileDownloadFacts | downloader/gofile.py:138-169 | An existing file triggers no request and no file change. A new file triggers exactly one request with the current token. An HTTP error leaves the file system unchanged. A stream with no cancel leaves the file on disk. |
| Gofile.FileDownloadNew | downloader/gofile.py:144-147 | A new file is requested once and only that path may change. |
| Gofile.CancelRemovesPartialFile | downloader/gofile.py:154-159 | A cancel seen at a chunk boundary leaves no file at the path. |
| Gofile.MutedApi | downloader/gofile.py:138-169 | The answers with every file body muted: account, script and contents answers unchanged, each file response with its `Cancel` events removed. |
| Gofile.StreamKeepsFlag | downloader/gofile.py:153-163 | A chunk loop over a body with no cancel leaves a clear flag clear. |
| Gofile.FileDownloadKeepsFlag | downloader/gofile.py:138-169 | A file download with no cancel in its body leaves a clear flag clear. |
| Gofile.DownloadAllKeepsFlag | downloader/gofile.py:131-136 | Downloading any list of requests with no cancel in the bodies leaves a clear flag clear. |
| Gofile.DescargarKeepsFlag | downloader/gofile.py:101-124 | With the file bodies muted, `descargar_gofile` never sets the cancel flag. |
| Gofile.DownloadAllRequestsEach | downloader/gofile.py:136-146 | For new distinct paths, downloading a list of requests sends one file request per entry, in order, with the same token. |
| Gofile.FileCallsOnly | downloader/gofile.py:138-169 | Downloading any list of requests sends only file requests and keeps both cached values. |
| Gofile.FileGets | downloader/gofile.py:145-146 | The file requests of a list of downloads, one per entry with the given token. |
| Gofile.Under | downloader/gofile.py:128-132 | Putting leaves under a folder adds that folder at the front of each leaf's folder path. |
| Gofile.RequestsFor | downloader/gofile.py:134-136 | One request per leaf, in order. |
| Gofile.SanitizeAll | downloader/gofile.py:128-134 | Each name goes through `sanitize_filename`. |
| Gofile.GofileDownloader.constructor | downloader/gofile.py:14 | A new downloader has no token, no `wt`, no cancel and empty buffers. |
| Gofile.GofileDownloader.LogText | downloader/gofile.py:51-56 | Each buffered line is `domain: translated message`. |
| Gofile.GofileDownloader.Log | downloader/gofile.py:51-56 | Appends one entry with the URL's netloc, or "General". |
| Gofile.GofileDownloader.RequestCancel | downloader/gofile.py:58-65 | Sets the cancel flag and logs the cancel and shutdown messages. |
| Gofile.GofileDownloader.UpdateToken | downloader/gofile.py:75-86 | Follows `UpdatedToken`; see TokenCached and TokenFetched. |
| Gofile.GofileDownloader.UpdateWt | downloader/gofile.py:88-99 | Follows `UpdatedWt`; see WtCached and WtFetched. |
| Gofile.GofileDownloader.StreamChunks | downloader/gofile.py:153-163 | The chunk loop follows `Stream`: a cancel calls `request_cancel`; a chunk found with the flag set logs, removes the file and stops. See StreamFacts and CancelBeforeChunk. |
| Gofile.GofileDownloader.DownloadFile | downloader/gofile.py:138-169 | Follows `FileDownload`; see FileDownloadFacts. |
| Gofile.GofileDownloader.DownloadRequests | downloader/gofile.py:131-136 | Downloads the flattened requests in order, following `DownloadAll`. |
| Gofile.GofileDownloader.HandleContents | downloader/gofile.py:112-122 | The status branches follow `ContentsHandled`. |
| Gofile.GofileDownloader.DescargarGofile | downloader/gofile.py:101-124 | Follows `Descargar`; see DescargarAsks, NotGrantedDownloadsNothing and GrantedDownloadsEachFile. |
| Phica.ConvertLegacyBunkrLinkParts | downloader/phica.py:47-63 | For a URL whose lowered netloc is a legacy domain, the result parses again to the same scheme, path, parameters, query and fragment with netloc `bunkr.ac`. Every other URL is returned unchanged. |
| Phica.ConvertLegacyBunkrLinkIdempotent | downloader/phica.py:47-63 | Converting twice is converting once, since `bunkr.ac` is not legacy. |
| Phica.NewDomainIsPlainHost | downloader/phica.py:41-57 | `new_bunkr_domains[0]` is `bunkr.ac`. It is a netloc with no delimiter, already lower case, and not in the legacy list. |
| Phica.NewDomainIsNotLegacy | downloader/phica.py:37-42 | `bunkr.ac` is not a legacy domain. |
| Phica.NewDomainIsLower | downloader/phica.py:52-57 | `bunkr.ac` lowers to itself. |
| Phica.ConvertedKeepsBunkr | downloader/phica.py:156-159 | A link containing "bunkr" still contains it after conversion. |
| Phica.SanitizeFolderName | downloader/phica.py:83-84 | Keeps the length. Each of `<>:"/\|?*` becomes `_`, all other characters are kept, and none of those characters remains. |
| Phica.SanitizeFolderNameIdempotent | downloader/phica.py:83-84 | Sanitizing twice is sanitizing once. |
| Phica.ExtensionOf | downloader/phica.py:257 | A match of `\.([a-zA-Z0-9]+)$` is a non-empty alphanumeric run that ends the path after a `.`. No match means no `.` of the path is followed only by alphanumerics. |
| Phica.ExtensionOfDotted | downloader/phica.py:257-259 | `stem.ext`, with an alphanumeric extension, matches exactly `ext`. |
| Phica.GetFileExtension | downloader/phica.py:252-260 | The extension of the path `urlparse` gives is never empty and consists of lower-case letters and digits, with "jpg" as the default. |
| Phica.GetFileExtensionIgnoresParams | downloader/phica.py:254-255 | For a path `stem.ext;params` over an `http`-like scheme, the extension is `ext` lower-cased: parameters do not hide it. |
| Phica.AlnumSuffixStart | downloader/phica.py:257 | Finds the start of the longest alphanumeric suffix. |
| Phica.UniqueFileName | downloader/phica.py:203-210 | The name is the 32-character MD5 of the URL, a `.` and the extension. |
| Phica.UniqueFileNameEquality | downloader/phica.py:203-210 | Two URLs get the same name exactly when their hashes and extensions agree. So the name is a fixed function of the URL and skip-if-exists resumes. |
| Phica.FolderForIsVideoTest | downloader/phica.py:221-227 | A file goes to the videos folder exactly when its extension is mp4, webm, mov or avi. Images and unknown types go to img. |
| Phica.FileDownloadFacts | downloader/phica.py:212-250 | With cancel at entry nothing changes. An existing file sends no request and changes no file. A new file is requested exactly once. After a successful response the file exists, the cancel flag is what the stream saw, and the name is added to `descargadas` only when no cancel was seen. |
| Phica.ChunksCancelSeen | downloader/phica.py:240-244 | The chunk loop ends with the cancel flag set exactly when it was set before or a cancel arrived during the stream. It changes only the flag and the log. It adds only the `request_cancel` note (phica.py:86-91) to the log, at least once when a cancel arrives with the flag clear. |
| Phica.CollectConvertedLinks | downloader/phica.py:152-160 | The first link pass appends exactly the converted external hrefs, in order, and keeps the base URL, the cancel flag and the files. |
| Phica.CollectRawLinks | downloader/phica.py:188-194 | The second pass appends exactly the external hrefs as found. |
| Phica.VisitPageCollects | downloader/phica.py:149-194 | One page adds its external hrefs converted and then raw, and nothing else, to `external_links`. |
| Phica.AttachmentsKeepLinks | downloader/phica.py:162-173 | The attachment loop does not change `external_links` or the base URL. |
| Phica.LightboxKeepsLinks | downloader/phica.py:175-186 | The lightbox loop does not change `external_links`. |
| Phica.ConvertAllCons | downloader/phica.py:156-159 | Converting a list converts its head and then its tail. |
| Phica.PaginateFailsOnlyOnFetchError | downloader/phica.py:126-133 | With cancel set, the page loop stops at once without error. When every remaining page is fetched, the loop reports success. |
| Phica.Enumerate | downloader/phica.py:296 | Iterating a set visits each member exactly once, in the order set iteration picks. |
| Phica.EnumerateStep | downloader/phica.py:296 | The iteration starts with the picked member and then iterates over the rest. |
| Phica.GofileLoopPick | downloader/phica.py:296-299 | One step of the loop hands the picked link to the Gofile downloader, records it, and takes any cancel pressed meanwhile. |
| Phica.GofileLoopStep | downloader/phica.py:296-299 | The same holds for one step over a list. |
| Phica.GofileLoopDispatch | downloader/phica.py:296-299 | The loop records the links up to and including the first one during which the user cancels (all of them without a cancel, none when the flag is already set), sets the flag and logs the cancel only then, and changes nothing else. |
| Phica.UpToCancel | downloader/phica.py:296-298 | A prefix of the links, none of them cancelled but the last; shorter than the links only when its last link was cancelled. |
| Phica.HandedOnCons | downloader/phica.py:296-299 | Handing on the first link and then the rest is handing on the links. |
| Phica.GofileDownloaderNeverCancelled | downloader/phica.py:278-299 | The Gofile downloader's own cancel flag, clear at the start, stays clear: nothing cancels it. |
| Phica.GofileLinksAtMostOnce | downloader/phica.py:268-301 | The links sent to `descargar_gofile` are a prefix of the set's iteration order, distinct, and each one of `external_links` containing "gofile". With the flag already set none is sent. With no cancel every such link is sent. Nothing is sent after the link during which the user cancels, and the flag is set exactly then. |
| Phica.GofileFilesSent | downloader/phica.py:268-301 | `download_gofile_files` records the links up to the cancel, in the set's order, and keeps the external links and the Bunkr posts. |
| Phica.SentInOrder | downloader/phica.py:290-299 | The links up to a cancel, taken from the iteration order of the Gofile link set, have every property of GofileLinksAtMostOnce. |
| Phica.CancelDuringGofilePhase | downloader/phica.py:296-332 | With a Gofile link and a Bunkr link, a cancel pressed during the Gofile download still lets the Bunkr loop as written post the Bunkr link; the corrected loop posts nothing. |
| Phica.DispatchOnePosts | downloader/phica.py:329-332 | One Bunkr link records the post of its converted form and keeps the cancel flag. |
| Phica.BunkrDispatchPosts | downloader/phica.py:328-335 | Without cancel, the Bunkr loop posts the converted form of every link containing "bunkr", in order. |
| Phica.BunkrLinks | downloader/phica.py:329 | The Bunkr links are a sublist of the links, each containing "bunkr". |
| Phica.BunkrLinkDispatchedTwice | downloader/phica.py:328-332 | A Bunkr href, collected converted (phica.py:159) and then raw (phica.py:193), is posted twice in converted form. |
| Phica.BunkrDispatchTwo | downloader/phica.py:328-332 | Two Bunkr links are posted in order. |
| Phica.BunkrDispatchPair | downloader/phica.py:328-332 | The loop over two links is two single dispatches. |
| Phica.BunkrDispatchStep | downloader/phica.py:328-332 | The loop over `[link] + rest` dispatches the link and then the rest. |
| Phica.BunkrDispatchAsWrittenIgnoresCancel | downloader/phica.py:328-332 | As written, a Bunkr link is posted even after a cancel. |
| Phica.BunkrDispatchStopsOnCancel | downloader/phica.py:328-332 | The corrected loop changes nothing after a cancel. Without cancel it agrees with the loop as written. |
| Phica.BunkrDispatchAgrees | downloader/phica.py:328-332 | Without cancel the two loops agree. |
| Phica.BunkrDispatchAsWrittenPosts | downloader/phica.py:328-332 | The loop as written posts the converted form of every link containing "bunkr", in order, whether or not the flag is set. |
| Phica.GofileFilesAfterCancel | downloader/phica.py:296-298 | With the flag already set, `download_gofile_files` sends no link, keeps the flag set and changes neither the external links, the Bunkr posts nor the files. |
| Phica.ExternalFilesAfterCancel | downloader/phica.py:303-337 | An external pass entered with the flag set: as written it posts every converted Bunkr link of the thread; the corrected pass posts none. |
| Phica.CancelDuringFirstPage | downloader/phica.py:93-139 | A cancel pressed while the first page is visited (during an attachment or lightbox download): `download_files` as written still posts every converted Bunkr link the page collected; the corrected program posts none. |
| Phica.Phica.constructor | downloader/phica.py:18 | A new downloader has no base URL, no cancel, and empty link lists and sets. |
| Phica.Phica.LogText | downloader/phica.py:64-66 | Each forwarded line is the translated message. |
| Phica.Phica.Log | downloader/phica.py:64-66 | Forwards one message. |
| Phica.Phica.RequestCancel | downloader/phica.py:86-91 | Sets the cancel flag and logs the cancel. |
| Phica.Phica.ConvertLink | downloader/phica.py:47-63 | Returns the converted link and logs only when a conversion happened. |
| Phica.Phica.WriteChunks | downloader/phica.py:240-244 | The chunk loop follows `Chunks`: a cancel calls `request_cancel`, and a chunk found with the flag set ends the loop. See ChunksCancelSeen. |
| Phica.Phica.DownloadFile | downloader/phica.py:212-250 | Follows `FileDownload`; see FileDownloadFacts. |
| Phica.Phica.CollectConvertedLinks | downloader/phica.py:152-160 | The first href loop; see the lemma of the same name. |
| Phica.Phica.CollectRawLinks | downloader/phica.py:188-194 | The second href loop. |
| Phica.Phica.DownloadAttachments | downloader/phica.py:162-173 | The attachment loop, which stops at a cancel and joins each href onto the base URL. |
| Phica.Phica.DownloadLightbox | downloader/phica.py:175-186 | The lightbox loop, which stops at a cancel and skips a link with no href. |
| Phica.Phica.DownloadFilesFromPage | downloader/phica.py:149-194 | The four passes over one page, in order. See VisitPageCollects. |
| Phica.Phica.FollowPages | downloader/phica.py:126-133 | The `while next and not cancel` loop after the first page: starting from the first page's next link, it fetches and visits each next page while there is one and no cancel. Returns false on a failed fetch. The first page itself is visited by DownloadFiles (phica.py:123). |
| Phica.Phica.GofileLinkSet | downloader/phica.py:290-293 | The set loop yields exactly the set of `external_links` that contain "gofile". |
| Phica.Phica.DownloadOneGofile | downloader/phica.py:296-299 | Records the link, the Gofile downloader follows `Descargar` for it with no password, and a cancel pressed meanwhile goes to `request_cancel`. |
| Phica.Phica.DownloadEach | downloader/phica.py:296-299 | The loop over the set follows `GofileLoop` over the set's iteration order, stopping at the cancel flag. |
| Phica.Phica.DownloadGofileFiles | downloader/phica.py:268-301 | Follows `GofileFiles`; see GofileLinksAtMostOnce for the links sent and the cancel. |
| Phica.Phica.DispatchBunkr | downloader/phica.py:328-335 | The Bunkr loop, as written or corrected. |
| Phica.Phica.DownloadExternalFiles | downloader/phica.py:303-337 | The corrected external-file pass: Gofile first, then Bunkr, stopping at a cancel. |
| Phica.Phica.DownloadExternalFilesAsWritten | downloader/phica.py:303-337 | The pass as written. |
| Phica.Phica.DownloadFiles | downloader/phica.py:93-139 | Clears the cancel flag, then reads the title (none ends the call), builds the folders, visits the first page, pages through the thread and runs the external pass. A failed fetch logs the error. With `asWritten` the external pass is `download_external_files` as written, whose Bunkr loop ignores the cancel flag; without it, the corrected pass. See CancelDuringFirstPage. |
| Phica.Phica.DownloadImagesFromPhica | downloader/phica.py:262-266 | Sets the base URL, logs, downloads the thread with DownloadFiles (as written or corrected by the same `asWritten` flag), logs completion. |
| Net.RunningSumsMonotone | downloader/bunkr.py:122-124 | Running sums of chunk sizes never drop below the start and never decrease. |
| Net.ReportsSumsCons | downloader/bunkr.py:121-124 | A progress report for one chunk followed by the reports of the rest is the report of the whole stream. |
| Net.NoCancelInRest | downloader/bunkr.py:115-116 | A stream with no cancel has none in its tail. |
| Net.Quiet | downloader/gofile.py:153-163 | A body with its `Cancel` events taken out has no cancel and the same chunk sizes. |
| Net.Muted | downloader/gofile.py:153-163 | A response with a quiet body: the same status, reason and length, no cancel, the same chunk sizes. |

## Left out

- Widgets, dialogs, menus, tooltips, icons, the clipboard, the progress manager and `export_logs` are Tk code. A dialog is recorded as an entry in a list. Button states are three values (download, cancel, download-all).
- Threads are not modelled. `start_download_thread` records a job, and the downloader the job names is not run from the window. `after(0, …)` runs at once, in order. `check_update_queue`'s re-arming with `after(100, …)` is left out.
- The notification threads that flush `log_messages` every 10 seconds, and `shutdown_executor`, are left out. The buffers are modelled; the flushing is not.
- HTTP, cookies, headers, JSON parsing and HTML parsing are left out. Responses, answers and pages are parameters. A page is its list of hrefs, attachment hrefs, lightbox hrefs and next-page link.
- The generic `except Exception` branches of Gofile are left out. `descargar_gofile` calls no `raise_for_status`, so `Error accessing GoFile link` would come only from a connection error, a JSON error or an exception inside the download loop, none of which is modelled. `Failed to download` is modelled for HTTP errors only; exceptions from file writes are not.
- `os.makedirs` and `os.path.exists` on folders are left out, since folders are not part of the file set.
- The run and delete phases of `reorganize_files` (`os.walk`, `os.rename`, `os.rmdir`) are left out. Only the classifier is modelled.
- The gallery-dl subprocess and the page request of `descargar_post_bunkr` and `descargar_perfil_bunkr` are left out. Only their folder names are modelled.
- Phica's Bunkr posts are recorded rather than performed, since they start that subprocess.
- `pixeldrain` links are matched and then ignored, as in the source.
- The Erome, SimpCity, Jpg5 and coomer/kemono downloaders are other files. They appear only as job records.
- MD5, SHA-256, `sanitize_filename` and `urljoin` are function parameters with no internals.
- The order in which a Python set is iterated is a `pick` function, with the only requirement that it picks a member.
- `urlsplit` also removes tab, CR and LF characters from the whole URL, and raises `ValueError` on a netloc with an unbalanced `[` or `]`. Neither is modelled: URLs are taken without those characters and bracketed hosts are not checked.
- Percent-decoding in `parse_qs` is not modelled: query values are taken as written. A `+` is replaced by a space, as `parse_qs` does.
- `str.lower` covers ASCII letters only. `str.strip` and `\s` use the full set of characters Python's `str.isspace` accepts.
- `time.sleep` is recorded as a wait, and no clock is modelled. The download start time is left out.
- Phica.Phica.FollowPages: requires the page list to be complete (the last page has no next link). The loop at phica.py:126-133 keeps no set of visited pages, so a thread whose next links form a cycle makes the source loop for ever, appending to `external_links` on every pass. Such a thread has no finite page list and is outside the model.
- Phica.Phica.DownloadEach: the Gofile runs inside Phica use a fresh Gofile model with its own log buffer. That buffer is not merged into Phica's log.
- A Cancel pressed during a Gofile link of Phica reaches only the Phica object (`cancel_download` calls `request_cancel` on the active downloader, ui.py:1069-1079). It is modelled by `gofileCancel(link)`, which sets Phica's flag once that link is done. The Gofile downloader Phica creates gets its file bodies muted (`MutedApi`), since nothing can set its own flag. Several presses during one link count as one.
- Phica.Phica.DownloadFile: a stream that stops at a cancel leaves its partial file in place, as written. Exceptions raised while writing are not modelled.
- Translation.Tr: `str.format` supports `{name}` fields and the escaped braces `{{` and `}}`. Positional fields, attribute and index access, conversions and format specifications are not modelled.
- Bunkr.DownloadAttempts: only HTTP error statuses are modelled as failed attempts. A connection error or a timeout has `e.response` set to None, so the test at bunkr.py:135 raises `AttributeError`, which leaves `download_file` at once with no retry. That path is not modelled.
- ExtractCkQuery: `str.isdigit` accepts every Unicode digit, while the model accepts ASCII digits only. In the source, `o=٣` gives the offset 3 (the model gives 0), and `o=²` passes `isdigit` but makes `int()` raise `ValueError` in the handler (the model gives 0).

## Findings

| source | as written | input that shows it | evidently intended | confidence | as-written member | corrected member |
|---|---|---|---|---|---|---|
| app/ui.py:996 | `handle_general_download` calls `self.reset_download_buttons()` when service or user is missing, but no such method exists, so the call raises `AttributeError` | URL entry `https://kemono.su`, any download folder | reset the buttons after the error, so a second download can be started | not executed | UiApp.BareKemonoStuckAsWritten | UiApp.BareKemonoRecoversCorrected |
| downloader/phica.py:328-332 | the Bunkr loop of `download_external_files` does not check `cancel_requested`, unlike the Gofile loop above it | a thread whose external links are a `gofile` link and then a `bunkr` link, with Cancel pressed while the Gofile link downloads: the Gofile loop stops, and the Bunkr link is still posted (a cancel during the thread's pages has the same effect, CancelDuringFirstPage) | stop dispatching links once a cancel is requested | not executed | Phica.CancelDuringGofilePhase | Phica.BunkrDispatchStopsOnCancel |
