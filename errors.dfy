/** Thrown values, the messages the handler throws itself, and the
    classification its `catch` block applies to every thrown value
    (app/api/analyze/tactics/route.ts, lines 256-284). */
module Errors {
  import opened Wrappers
  import opened Json
  import opened Text

  /** A value thrown inside the handler's `try` block: an `Error` instance,
      which always has a message, or any other object, whose `message`
      property may be absent. Either may carry the `errorDetails` property
      that the generative-AI client's errors have (`JNull` when absent). */
  datatype Thrown =
    | ErrorObject(message: string, errorDetails: Value)
    | OtherValue(messageProperty: Option<string>, errorDetails: Value)

  /** `error.message`, where it is a string. */
  function Message(e: Thrown): Option<string> {
    match e
    case ErrorObject(m, _) => Some(m)
    case OtherValue(m, _) => m
  }

  /** `new Error(message)`. */
  function Raise(message: string): Thrown {
    ErrorObject(message, JNull)
  }

  /** The outcome of a collaborator call: its value, or what it threw. */
  datatype Result<T> = Ok(value: T) | Err(error: Thrown)

  // ---------------------------------------------------------------------
  // The messages the handler throws (lines 109, 168, 183, 194, 198)
  // ---------------------------------------------------------------------

  // The longer literals are written as concatenations of shorter pieces.

  function PresetFetchFailed(url: string, statusText: string): string {
    "Failed to " + "fetch preset video" + " from " + url + ": " + statusText
  }

  const MissingMetadata := "Could not obtain " + "file metadata " + "for analysis."

  function ProcessingFailed(displayName: string): string {
    "File processing failed for " + displayName
  }

  function UnexpectedState(state: string): string {
    "Unexpected file state: " + state
  }

  /** The timeout message; `300` is the text of the 300-second budget. */
  function TimedOut(state: string): string {
    "File processing " + "timed out after " + "300 seconds. " + "Current state: " + state
  }

  // ---------------------------------------------------------------------
  // Classification
  // ---------------------------------------------------------------------

  /** The substrings the `catch` block tests, in the order it tests them. */
  const TimeoutMarker := "File processing " + "failed or timed out"
  const PresetMarker := "fetch preset video"
  const GetFileMarker := "getFile"

  const UnknownError := "An unknown error occurred during analysis"

  /** `${fileIdentifier}` for a `string | null` variable. */
  function IdentifierText(fileIdentifier: Option<string>): string {
    if fileIdentifier.Some? then fileIdentifier.value else "null"
  }

  datatype Classification = Classification(status: int, details: Value)

  /** The status and `details` the `catch` block answers with for the thrown
      value `e`, given the file identifier captured so far. */
  function Classify(e: Thrown, fileIdentifier: Option<string>): (c: Classification)
    ensures c.status in {404, 500, 502, 504}
    ensures c.status == 504 <==> Message(e).Some? && Contains(Message(e).value, TimeoutMarker)
    ensures c.status == 502 <==>
      Message(e).Some? && !Contains(Message(e).value, TimeoutMarker) && Contains(Message(e).value, PresetMarker)
    ensures c.status == 404 <==>
      Message(e).Some? &&
      !Contains(Message(e).value, TimeoutMarker) && !Contains(Message(e).value, PresetMarker) &&
      Contains(Message(e).value, GetFileMarker) &&
      (Contains(Message(e).value, "404") || Contains(ToLower(Message(e).value), "not found"))
    ensures Message(e).None? && !Truthy(e.errorDetails) ==> c == Classification(500, JString(UnknownError))
  {
    var m := Message(e);
    if m.Some? && Contains(m.value, TimeoutMarker) then
      Classification(504, JString(m.value))
    else if m.Some? && Contains(m.value, PresetMarker) then
      Classification(502, JString("Failed to retrieve preset video: " + m.value))
    else if m.Some? && Contains(m.value, GetFileMarker) then
      if Contains(m.value, "404") || Contains(ToLower(m.value), "not found") then
        Classification(404, JString("Uploaded file not found (" + IdentifierText(fileIdentifier) +
                                    "). It might have expired or been deleted."))
      else
        Classification(500, JString("Failed to retrieve uploaded file metadata: " + m.value))
    else if Truthy(e.errorDetails) then
      Classification(500, e.errorDetails)
    else if e.ErrorObject? then
      Classification(500, JString(e.message))
    else
      Classification(500, JString(UnknownError))
  }

  // ---------------------------------------------------------------------
  // Which status the handler's own messages receive
  // ---------------------------------------------------------------------

  /** `s` contains none of the three substrings the `catch` block looks for
      before it falls back to the generic answer. */
  predicate Unmarked(s: string) {
    !Contains(s, TimeoutMarker) && !Contains(s, PresetMarker) && !Contains(s, GetFileMarker)
  }

  /** An error the handler raises with an unmarked message gets 500, with the
      message itself as details. */
  lemma UnmarkedRaiseIs500(message: string, fileIdentifier: Option<string>)
    requires Unmarked(message)
    ensures Classify(Raise(message), fileIdentifier) == Classification(500, JString(message))
  {
  }

  lemma ProcessingFailedUnmarked(displayName: string)
    requires Unmarked(displayName)
    ensures Unmarked(ProcessingFailed(displayName))
  {
    ProcessingFailedWithoutTimeoutMarker(displayName);
    ProcessingFailedWithoutPresetMarker(displayName);
    ProcessingFailedWithoutGetFileMarker(displayName);
  }

  /** The timeout marker agrees with the message up to position 23 only. */
  lemma ProcessingFailedWithoutTimeoutMarker(d: string)
    requires !Contains(d, TimeoutMarker)
    ensures !Contains(ProcessingFailed(d), TimeoutMarker)
  {
    var s := ProcessingFailed(d);
    assert s == ['F'] + ("ile processing failed for " + d);
    if |TimeoutMarker| <= |s| {
      assert s[..|TimeoutMarker|][23] == s[23] == 'f' != TimeoutMarker[23];
    }
    DropFirst('F', "ile processing failed for " + d, TimeoutMarker);
    Lead("ile processing failed for ", d, TimeoutMarker);
  }

  /** The "f" of "failed" and of "for" are false starts of "fetch preset video". */
  lemma ProcessingFailedWithoutPresetMarker(d: string)
    requires !Contains(d, PresetMarker)
    ensures !Contains(ProcessingFailed(d), PresetMarker)
  {
    assert ProcessingFailed(d) == "File processing " + ("failed for " + d);
    Lead("File processing ", "failed for " + d, PresetMarker);
    assert "failed for " + d == ['f', 'a'] + ("iled for " + d);
    FalseStart('f', 'a', "iled for " + d, PresetMarker);
    assert ['a'] + ("iled for " + d) == "ailed " + ("for " + d);
    Lead("ailed ", "for " + d, PresetMarker);
    assert "for " + d == ['f', 'o'] + ("r " + d);
    FalseStart('f', 'o', "r " + d, PresetMarker);
    assert ['o'] + ("r " + d) == "or " + d;
    Lead("or ", d, PresetMarker);
  }

  /** The "g" of "processing" is a false start of "getFile". */
  lemma ProcessingFailedWithoutGetFileMarker(d: string)
    requires !Contains(d, GetFileMarker)
    ensures !Contains(ProcessingFailed(d), GetFileMarker)
  {
    assert ProcessingFailed(d) == "File processin" + ("g failed for " + d);
    Lead("File processin", "g failed for " + d, GetFileMarker);
    assert "g failed for " + d == ['g', ' '] + ("failed for " + d);
    FalseStart('g', ' ', "failed for " + d, GetFileMarker);
    assert [' '] + ("failed for " + d) == " failed for " + d;
    Lead(" failed for ", d, GetFileMarker);
  }

  lemma TimedOutUnmarked(state: string)
    requires Unmarked(state)
    ensures Unmarked(TimedOut(state))
  {
    TimedOutWithoutTimeoutMarker(state);
    SkipPieces("File processing ", "timed out after ", "300 seconds. ", "Current state: ", state, PresetMarker);
    SkipPieces("File processing ", "timed out after ", "300 seconds. ", "Current state: ", state, GetFileMarker);
  }

  /** An occurrence of `n` in a text of four pieces and a tail, none of
      the pieces able to hold its start, lies in the tail. */
  lemma SkipPieces(p1: string, p2: string, p3: string, p4: string, tail: string, n: string)
    requires NoStartIn(p1, n) && NoStartIn(p2, n) && NoStartIn(p3, n) && NoStartIn(p4, n)
    ensures Contains(p1 + p2 + p3 + p4 + tail, n) ==> Contains(tail, n)
  {
    assert p1 + p2 + p3 + p4 + tail == p1 + (p2 + (p3 + (p4 + tail)));
    Skip(p1, p2 + (p3 + (p4 + tail)), n);
    Skip(p2, p3 + (p4 + tail), n);
    Skip(p3, p4 + tail, n);
    Skip(p4, tail, n);
  }

  /** The timeout marker agrees with the message up to position 16 only;
      after the leading "F" no piece holds an "F". */
  lemma TimedOutWithoutTimeoutMarker(st: string)
    requires !Contains(st, TimeoutMarker)
    ensures !Contains(TimedOut(st), TimeoutMarker)
  {
    var s := TimedOut(st);
    var rest := "ile processing " + "timed out after " + "300 seconds. " + "Current state: " + st;
    assert "File processing " == ['F'] + "ile processing ";
    assert s == ['F'] + rest;
    assert s[16] == 't' && TimeoutMarker[16] == 'f';
    if |TimeoutMarker| <= |s| {
      assert s[..|TimeoutMarker|][16] != TimeoutMarker[16];
    }
    DropFirst('F', rest, TimeoutMarker);
    SkipPieces("ile processing ", "timed out after ", "300 seconds. ", "Current state: ", st, TimeoutMarker);
  }

  lemma UnexpectedStateUnmarked(state: string)
    requires Unmarked(state)
    ensures Unmarked(UnexpectedState(state))
  {
    var st := state;
    var s := UnexpectedState(st);
    Lead("Unexpected file state: ", st, TimeoutMarker);
    Lead("Unexpected file state: ", st, GetFileMarker);
    // "fetch preset video": the "f" of "file" is a false start
    assert s == "Unexpected " + ("file state: " + st);
    Lead("Unexpected ", "file state: " + st, PresetMarker);
    assert "file state: " + st == ['f', 'i'] + ("le state: " + st);
    FalseStart('f', 'i', "le state: " + st, PresetMarker);
    assert ['i'] + ("le state: " + st) == "ile state: " + st;
    Lead("ile state: ", st, PresetMarker);
  }

  lemma MissingMetadataUnmarked()
    ensures Unmarked(MissingMetadata)
  {
    var p1, p2, p3 := "Could not obtain ", "file metadata ", "for analysis.";
    assert MissingMetadata == p1 + p2 + p3 + [] + [];
    SkipPieces(p1, p2, p3, [], [], TimeoutMarker);
    SkipPieces(p1, p2, p3, [], [], PresetMarker);
    SkipPieces(p1, p2, p3, [], [], GetFileMarker);
  }

  /** The state names of the provider's enumeration are unmarked. */
  lemma KnownStatesUnmarked()
    ensures Unmarked("PROCESSING") && Unmarked("FAILED") && Unmarked("ACTIVE") && Unmarked("STATE_UNSPECIFIED")
  {
    assert "PROCESSING" == "PROCESSING" + [];
    Lead("PROCESSING", [], GetFileMarker);
    assert "STATE_UNSPECIFIED" == "STATE_UNSPECIFIED" + [];
    Lead("STATE_UNSPECIFIED", [], GetFileMarker);
  }

  /** The preset-fetch error always carries the 502 marker, so it gets 502
      unless the URL or the status text itself contains the 504 marker. */
  lemma PresetFetchFailedIs502(url: string, statusText: string, fileIdentifier: Option<string>)
    requires !Contains(url, TimeoutMarker) && !Contains(statusText, TimeoutMarker)
    ensures Classify(Raise(PresetFetchFailed(url, statusText)), fileIdentifier)
         == Classification(502, JString("Failed to retrieve preset video: " + PresetFetchFailed(url, statusText)))
  {
    PresetFetchFailedMarked(url, statusText);
  }

  lemma PresetFetchFailedMarked(url: string, statusText: string)
    requires !Contains(url, TimeoutMarker) && !Contains(statusText, TimeoutMarker)
    ensures Contains(PresetFetchFailed(url, statusText), PresetMarker)
    ensures !Contains(PresetFetchFailed(url, statusText), TimeoutMarker)
  {
    PresetFetchFailedHasMarker(url, statusText);
    PresetFetchFailedWithoutTimeoutMarker(url, statusText);
  }

  /** Whatever the URL and the status text, the preset-fetch message holds
      the preset marker. */
  lemma PresetFetchFailedHasMarker(url: string, statusText: string)
    ensures Contains(PresetFetchFailed(url, statusText), PresetMarker)
  {
    PresetFetchFailedPieces(url, statusText);
    ContainsInfix("Failed to ", PresetMarker, " from " + (url + [':'] + (" " + statusText)));
  }

  /** The timeout marker cannot start in the literal prefix, nor span the ':'. */
  lemma PresetFetchFailedWithoutTimeoutMarker(url: string, statusText: string)
    requires !Contains(url, TimeoutMarker) && !Contains(statusText, TimeoutMarker)
    ensures !Contains(PresetFetchFailed(url, statusText), TimeoutMarker)
  {
    var tail := url + [':'] + (" " + statusText);
    PresetFetchFailedPieces(url, statusText);
    SkipPieces("Failed to ", PresetMarker, " from ", [], tail, TimeoutMarker);
    Barrier(url, ':', " " + statusText, TimeoutMarker);
    Lead(" ", statusText, TimeoutMarker);
  }

  lemma PresetFetchFailedPieces(url: string, statusText: string)
    ensures PresetFetchFailed(url, statusText) == "Failed to " + PresetMarker + (" from " + (url + [':'] + (" " + statusText)))
    ensures PresetFetchFailed(url, statusText) == "Failed to " + PresetMarker + " from " + [] + (url + [':'] + (" " + statusText))
  {
  }

  /** A `FAILED` file's error gets 500, not the gateway-timeout status. */
  lemma ProcessingFailedIs500(displayName: string, fileIdentifier: Option<string>)
    requires Unmarked(displayName)
    ensures Classify(Raise(ProcessingFailed(displayName)), fileIdentifier)
         == Classification(500, JString(ProcessingFailed(displayName)))
  {
    ProcessingFailedUnmarked(displayName);
  }

  /** The timeout error gets 500, not the gateway-timeout status: its text
      does not contain the marker the 504 branch looks for. */
  lemma TimedOutIs500(state: string, fileIdentifier: Option<string>)
    requires Unmarked(state)
    ensures Classify(Raise(TimedOut(state)), fileIdentifier) == Classification(500, JString(TimedOut(state)))
  {
    TimedOutUnmarked(state);
  }

  lemma UnexpectedStateIs500(state: string, fileIdentifier: Option<string>)
    requires Unmarked(state)
    ensures Classify(Raise(UnexpectedState(state)), fileIdentifier)
         == Classification(500, JString(UnexpectedState(state)))
  {
    UnexpectedStateUnmarked(state);
  }

  lemma MissingMetadataIs500(fileIdentifier: Option<string>)
    ensures Classify(Raise(MissingMetadata), fileIdentifier) == Classification(500, JString(MissingMetadata))
  {
    MissingMetadataUnmarked();
  }
}
