/** The capture step: the relay's reply, the decision taken on it and the
    downloaded file (content/content.js, lines 368-409; background.js,
    lines 4-23). */
module Capture {
  import opened Wrappers
  import opened Lexical
  import opened Raster

  /** The relay's reply `{imageDataUrl}` or `{error}`. */
  datatype Reply = Reply(imageDataUrl: Option<string>, error: Option<string>)

  /** What the reply continuation does: load the screenshot, report the
      failure (notice, then teardown), or throw before doing either. */
  datatype Outcome = LoadImage(url: string) | ReportFailure | Throws

  /** A JavaScript string is truthy when it is present and not empty. */
  predicate Truthy(s: Option<string>) {
    s.Some? && s.value != ""
  }

  /** The continuation as written: its failure branch first reads
      `response.error`, which throws a TypeError when no reply came. */
  function DecideAsWritten(response: Option<Reply>): (o: Outcome)
    ensures o.LoadImage? <==> response.Some? && Truthy(response.value.imageDataUrl)
    ensures o == Throws <==> response.None?
  {
    if response.Some? && Truthy(response.value.imageDataUrl) then LoadImage(response.value.imageDataUrl.value)
    else if response.None? then Throws
    else ReportFailure
  }

  /** The continuation as intended: a missing reply is a failure like an
      error reply. */
  function Decide(response: Option<Reply>): (o: Outcome)
    ensures o != Throws
    ensures o.LoadImage? <==> response.Some? && Truthy(response.value.imageDataUrl)
    ensures o.LoadImage? ==> o.url == response.value.imageDataUrl.value
  {
    if response.Some? && Truthy(response.value.imageDataUrl) then LoadImage(response.value.imageDataUrl.value)
    else ReportFailure
  }

  /** The input that shows the difference: with no reply, the written code
      throws, so neither the notice nor the teardown happens. */
  lemma MissingReplyThrows()
    ensures DecideAsWritten(None) == Throws
    ensures Decide(None) == ReportFailure
  {
  }

  /** On every reply that does arrive, the two agree. */
  lemma DecideAgreesOnReplies(r: Reply)
    ensures DecideAsWritten(Some(r)) == Decide(Some(r))
  {
  }

  const FailureNotice := "Could not capture the page. Try reloading the page and attempting again."

  /** `capture-${Date.now()}.png`. */
  function FileName(now: nat): string {
    "capture-" + Show(now) + ".png"
  }

  /** The file name carries the timestamp: it can be read back from between
      the fixed prefix and suffix. */
  lemma FileNameCarriesTimestamp(now: nat)
    ensures var name := FileName(now);
            |name| >= 13 && name[..8] == "capture-" && name[|name| - 4..] == ".png"
            && AllDigits(name[8..|name| - 4]) && Value(name[8..|name| - 4]) == now
  {
    var name := FileName(now);
    assert name[8..|name| - 4] == Show(now);
    ValueOfShow(now);
  }

  /** One layer of the final image, bottom first. */
  datatype Layer = Screenshot(url: string) | Annotations(cells: seq<seq<Cell>>, ink: seq<Ink>)

  /** The downloaded image: its size, its layers bottom to top, its name. */
  datatype Artifact = Artifact(width: nat, height: nat, layers: seq<Layer>, fileName: string)
}
