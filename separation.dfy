/** The source-separation client hook: the `isSeparating`, result and error
    fields, and the rewriting of the server's stem paths into absolute URLs.
    `separateAudio` runs in two parts around its network wait: `Begin` is
    everything before the first `await`, `Complete` everything after it,
    given the HTTP outcome as an input. */
module Separation {
  import opened Common

  const BackendOrigin: string := "http://localhost:8000"
  const DefaultModel: string := "htdemucs_6s"
  const SeparationFailed: string := "Separation failed"
  const SuccessFalseMessage: string := "Server returned success: false"
  /** The message V8 gives `Object.entries(undefined)`. */
  const NoStemsMessage: string := "Cannot convert undefined or null to object"

  /** A value of the server's `stems` object: a path string or anything else. */
  datatype StemValue = Path(path: string) | NotAString

  /** What the network call produced. */
  datatype HttpOutcome =
    /** `fetch` rejected (network failure) with this message. */
    | FetchFailed(message: string)
    /** A non-2xx response. `detail` is the string form of the body's
        `detail` field when that is truthy; `None` when it is falsy or
        missing, or the body is not JSON. */
    | NotOk(detail: Option<string>)
    /** A 2xx response whose body is not JSON: `response.json()` rejected. */
    | OkUnparsable(message: string)
    /** A 2xx JSON body: the truthiness of `success`, and the `stems`
        object (`None` when it is missing). */
    | OkBody(success: bool, stems: Option<map<string, StemValue>>)

  /** `err.message || 'Separation failed'`. */
  function ErrorText(message: string): (t: string)
    ensures t != []
    ensures message != [] ==> t == message
  {
    if message == [] then SeparationFailed else message
  }

  /** The intended stem map: every string entry, prefixed with the backend origin. */
  function AbsoluteStems(stems: map<string, StemValue>): (r: map<string, string>)
  {
    map k | k in stems && stems[k].Path? :: BackendOrigin + stems[k].path
  }

  /** The `for ... of Object.entries(stems)` loop that fills `absoluteStems`. */
  method RewriteStems(stems: map<string, StemValue>) returns (absolute: map<string, string>)
    ensures absolute.Keys == set k | k in stems && stems[k].Path?
    ensures forall k :: k in absolute ==> absolute[k] == BackendOrigin + stems[k].path
    ensures absolute == AbsoluteStems(stems)
  {
    absolute := map[];
    var todo := stems.Keys;
    while todo != {}
      invariant todo <= stems.Keys
      invariant absolute.Keys == set k | k in stems && k !in todo && stems[k].Path?
      invariant forall k :: k in absolute ==> k in stems && stems[k].Path? && absolute[k] == BackendOrigin + stems[k].path
      decreases |todo|
    {
      var key :| key in todo;
      if stems[key].Path? {
        absolute := absolute[key := BackendOrigin + stems[key].path];
      }
      todo := todo - {key};
    }
    assert absolute.Keys == AbsoluteStems(stems).Keys;
  }

  /** The outcome of a request after the network wait: the stem map, or the
      error message set. */
  function Outcome(response: HttpOutcome): (r: Result<map<string, string>, string>)
  {
    match response
    case FetchFailed(m) => Err(ErrorText(m))
    case NotOk(detail) => Err(ErrorText(if detail.Some? then detail.value else SeparationFailed))
    case OkUnparsable(m) => Err(ErrorText(m))
    case OkBody(success, stems) =>
      if !success then Err(SuccessFalseMessage)
      else if stems.None? then Err(NoStemsMessage)
      else Ok(AbsoluteStems(stems.value))
  }

  /** On success, the result keys are exactly the string entries, each an
      absolute URL on the backend ending in the original path. */
  lemma SuccessRewritesPaths(stems: map<string, StemValue>)
    ensures var r := Outcome(OkBody(true, Some(stems)));
            && r.Ok?
            && r.value.Keys == (set k | k in stems && stems[k].Path?)
            && (forall k :: k in r.value ==>
                  StartsWith(r.value[k], BackendOrigin) && r.value[k][|BackendOrigin|..] == stems[k].path)
  {
  }

  /** Every failure carries a non-empty message; a non-ok response reports
      the server's detail, defaulting to "Separation failed". */
  lemma FailureMessages(response: HttpOutcome)
    ensures Outcome(response).Err? ==> Outcome(response).error != []
    ensures response.NotOk? && response.detail.Some? && response.detail.value != [] ==>
              Outcome(response) == Err(response.detail.value)
    ensures response.NotOk? && (response.detail.None? || response.detail.value == []) ==>
              Outcome(response) == Err(SeparationFailed)
    ensures response.OkBody? && !response.success ==> Outcome(response) == Err(SuccessFalseMessage)
  {
  }

  class SourceSeparation {
    var isSeparating: bool
    var result: Option<map<string, string>>
    var error: Option<string>

    /** After any completion or reset the fields agree: at most one of
        result and error is set, and an error is never empty. */
    ghost predicate Settled()
      reads this
    {
      !isSeparating && !(result.Some? && error.Some?) && (error.Some? ==> error.value != [])
    }

    constructor ()
      ensures !isSeparating && result == None && error == None
    {
      isSeparating, result, error := false, None, None;
    }

    /** `separateAudio` up to its first `await`. */
    method Begin()
      modifies this
      ensures isSeparating && result == None && error == None
    {
      isSeparating := true;
      result := None;
      error := None;
    }

    /** `separateAudio` after the response: a result or an error message is
        stored, and in every case (`finally`) separation is over. The other
        field is not touched here; `Begin` cleared it. */
    method Complete(response: HttpOutcome)
      modifies this
      ensures !isSeparating
      ensures Outcome(response).Ok? ==> result == Some(Outcome(response).value) && error == old(error)
      ensures Outcome(response).Err? ==> error == Some(Outcome(response).error) && result == old(result)
    {
      match response {
        case FetchFailed(m) =>
          error := Some(ErrorText(m));
        case NotOk(detail) =>
          error := Some(ErrorText(if detail.Some? then detail.value else SeparationFailed));
        case OkUnparsable(m) =>
          error := Some(ErrorText(m));
        case OkBody(success, stems) =>
          if !success {
            error := Some(ErrorText(SuccessFalseMessage));
          } else if stems.None? {
            error := Some(ErrorText(NoStemsMessage));
          } else {
            var absolute := RewriteStems(stems.value);
            result := Some(absolute);
          }
      }
      isSeparating := false;
    }

    /** One request with nothing in between its two parts: on success the
        result and no error, on failure an error and no result. */
    method SeparateAudio(response: HttpOutcome)
      modifies this
      ensures Settled()
      ensures Outcome(response).Ok? ==> result == Some(Outcome(response).value) && error == None
      ensures Outcome(response).Err? ==> result == None && error == Some(Outcome(response).error)
    {
      Begin();
      Complete(response);
      FailureMessages(response);
    }

    /** `resetSeparation`: back to the state at construction. */
    method ResetSeparation()
      modifies this
      ensures !isSeparating && result == None && error == None && Settled()
    {
      result := None;
      error := None;
      isSeparating := false;
    }
  }
}
