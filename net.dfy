/**
 * What the downloaders see of an HTTP exchange: a status, the reason phrase, the
 * `content-length` header and the body as it is streamed in chunks. Between two chunks the
 * user may press Cancel in the window; a `Cancel` event in the body marks that moment.
 * The downloaders log with the same prefix rule and report progress in the same shape.
 */
module Net {
  import opened Wrappers
  import opened Text
  import opened Urls

  datatype Event = Data(size: nat) | Cancel

  /** `contentLength` is the header's value, or 0 when the header is absent. */
  datatype Response = Response(status: int, reason: string, contentLength: nat, body: seq<Event>)

  /** The statuses for which `raise_for_status` raises. */
  predicate IsHttpError(status: int) {
    400 <= status < 600
  }

  /** The text of the exception `raise_for_status` raises (`str(e)`). */
  function HttpErrorMessage(status: nat, reason: string, url: string): string {
    NatToString(status) + (if status < 500 then " Client Error: " else " Server Error: ") + reason + " for url: " + url
  }

  /** The prefix `log(message, url)` gives a message: the host of `url`, or "General" without a URL. */
  function LogDomain(url: Option<string>): string {
    if url.Some? && url.value != "" then UrlSplit(url.value).netloc else "General"
  }

  /**
   * One progress report: bytes so far, the announced total, an identifier of the file (Bunkr's
   * file id; Gofile reports none) and the file path.
   */
  datatype Progress = Progress(downloaded: nat, total: nat, fileId: string, path: string)

  /** The sizes of the chunks of a body, in order. */
  function DataSizes(body: seq<Event>): (r: seq<nat>)
    ensures |r| <= |body|
  {
    if body == [] then []
    else match body[0]
      case Data(n) => [n] + DataSizes(body[1..])
      case Cancel => DataSizes(body[1..])
  }

  /** Whether the user presses Cancel at some point of the stream. */
  predicate HasCancel(body: seq<Event>) {
    exists i :: 0 <= i < |body| && body[i] == Cancel
  }

  /** The body with its `Cancel` events taken out: the same chunks, and no moment at which the stream is cancelled. */
  function Quiet(body: seq<Event>): (r: seq<Event>)
    ensures !HasCancel(r)
    ensures DataSizes(r) == DataSizes(body)
  {
    if body == [] then []
    else
      var rest := Quiet(body[1..]);
      match body[0]
      case Cancel => rest
      case Data(n) =>
        assert forall i :: 1 <= i < |[body[0]] + rest| ==> ([body[0]] + rest)[i] == rest[i - 1];
        [body[0]] + rest
  }

  /** The response with its body made `Quiet`. */
  function Muted(resp: Response): (r: Response)
    ensures r == resp.(body := r.body) && !HasCancel(r.body) && DataSizes(r.body) == DataSizes(resp.body)
  {
    resp.(body := Quiet(resp.body))
  }

  /** A body without a cancel has none after its first event. */
  lemma {:induction false} NoCancelInRest(body: seq<Event>)
    requires body != []
    ensures !HasCancel(body) ==> !HasCancel(body[1..])
  {
    if HasCancel(body[1..]) {
      var i :| 0 <= i < |body[1..]| && body[1..][i] == Cancel;
      assert body[i + 1] == Cancel;
    }
  }

  /** The running totals `start + sizes[0] + ... + sizes[k]`, one per chunk. */
  function RunningSums(sizes: seq<nat>, start: nat): (r: seq<nat>)
    ensures |r| == |sizes|
  {
    if sizes == [] then [] else [start + sizes[0]] + RunningSums(sizes[1..], start + sizes[0])
  }

  /**
   * `after` is `before` followed by one report per running total of `sums`, in order (one for
   * every total when `complete`), each for the file `fileId` at `path` of `total` bytes.
   */
  predicate ReportsSums(before: seq<Progress>, after: seq<Progress>, sums: seq<nat>, total: nat,
                        fileId: string, path: string, complete: bool)
  {
    && |before| <= |after| <= |before| + |sums| && after[..|before|] == before
    && (forall i :: |before| <= i < |after| ==> after[i] == Progress(sums[i - |before|], total, fileId, path))
    && (complete ==> |after| == |before| + |sums|)
  }

  /** Reporting the first chunk, then the running totals of the rest, reports the running totals of all. */
  lemma {:induction false} ReportsSumsCons(before: seq<Progress>, after: seq<Progress>, start: nat, n: nat, sizes: seq<nat>,
                                           total: nat, fileId: string, path: string, complete: bool)
    requires ReportsSums(before + [Progress(start + n, total, fileId, path)], after, RunningSums(sizes, start + n),
                         total, fileId, path, complete)
    ensures ReportsSums(before, after, RunningSums([n] + sizes, start), total, fileId, path, complete)
  {
    var mid := before + [Progress(start + n, total, fileId, path)];
    var rest := RunningSums(sizes, start + n);
    assert ([n] + sizes)[1..] == sizes;
    var sums := RunningSums([n] + sizes, start);
    assert sums == [start + n] + rest;
    assert after[..|before|] == after[..|mid|][..|before|];
    forall i | |before| <= i < |after|
      ensures after[i] == Progress(sums[i - |before|], total, fileId, path)
    {
      if i == |before| {
        assert after[i] == after[..|mid|][i];
      } else {
        assert sums[i - |before|] == rest[i - |mid|];
      }
    }
  }

  /** Running totals never decrease and never fall below the start. */
  lemma {:induction false} RunningSumsMonotone(sizes: seq<nat>, start: nat)
    ensures forall i :: 0 <= i < |sizes| ==> start <= RunningSums(sizes, start)[i]
    ensures forall i, j :: 0 <= i <= j < |sizes| ==> RunningSums(sizes, start)[i] <= RunningSums(sizes, start)[j]
  {
    if sizes != [] {
      RunningSumsMonotone(sizes[1..], start + sizes[0]);
      var r := RunningSums(sizes, start);
      assert forall i :: 1 <= i < |sizes| ==> r[i] == RunningSums(sizes[1..], start + sizes[0])[i - 1];
    }
  }
}
