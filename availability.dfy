/**
 * `isAvailable` (index.js:155-187): the defaulting of its arguments and how
 * the HTTP outcome settles the returned promise. Building the request URI and
 * issuing the request are not part of this model; the outcome of the request
 * is the input.
 */
module Availability {
  import opened Wrappers
  import opened JsValues
  import opened TouchpointErrors

  const DefaultBaseUrl := "https://touchpoint.telviva.com/"
  const DefaultTeam := "default"

  /** Where the probe goes: the base URL and the team, after defaulting. */
  datatype ProbeTarget = ProbeTarget(baseUrl: JsValue, team: JsValue)

  /** `url` and `team` default when null or undefined, and are kept otherwise. */
  function ResolveTarget(team: JsValue, url: JsValue): (t: ProbeTarget)
    ensures !IsNullish(t.baseUrl) && !IsNullish(t.team)
    ensures IsNullish(url) ==> t.baseUrl == Str(DefaultBaseUrl)
    ensures !IsNullish(url) ==> t.baseUrl == url
    ensures IsNullish(team) ==> t.team == Str(DefaultTeam)
    ensures !IsNullish(team) ==> t.team == team
  {
    ProbeTarget(if IsNullish(url) then Str(DefaultBaseUrl) else url,
                if IsNullish(team) then Str(DefaultTeam) else team)
  }

  /** What the request callback receives: an error, or a response with its (JSON-decoded when possible) body. */
  datatype HttpOutcome = RequestFailed(err: JsValue) | Responded(statusCode: int, body: JsValue)

  /** Why the promise rejects: the request's own error, or a TouchpointError built from an error response. */
  datatype ProbeError = RequestError(err: JsValue) | ServiceError(error: TouchpointError)

  /**
   * The values `for (let channel of body)` visits: the elements of an array,
   * one one-character string per character of a string body.
   */
  function Iterated(body: JsValue): seq<JsValue>
  {
    match body
    case Array(elems) => elems
    case Str(s) => seq(|s|, k requires 0 <= k < |s| => Str([s[k]]))
    case _ => []
  }

  predicate IsTextChannel(channel: JsValue)
  {
    Get(channel, "channel") == Str("text")
  }

  /**
   * The outcomes the callback handles without throwing: a request error that
   * is not null, an error status, or a success whose body can be iterated and
   * whose elements up to the first text channel are neither null nor
   * undefined (reading `.channel` of one throws; the loop stops at the first
   * text channel, so later elements are never read).
   */
  predicate Settles(o: HttpOutcome)
  {
    match o
    case RequestFailed(err) => !IsNullish(err)
    case Responded(status, body) =>
      status >= 300
      || body.Str?
      || (body.Array? &&
          forall k :: 0 <= k < |body.elems| && (forall j :: 0 <= j < k ==> !IsTextChannel(body.elems[j]))
                      ==> !IsNullish(body.elems[k]))
  }

  /** k is where the loop returns: a text channel with no text channel before it. */
  ghost predicate IsFirstText(channels: seq<JsValue>, k: int)
  {
    0 <= k < |channels| && IsTextChannel(channels[k])
    && forall j :: 0 <= j < k ==> !IsTextChannel(channels[j])
  }

  /**
   * The request callback. A request error rejects with that error; a status of
   * 300 or more rejects with the TouchpointError of the body; otherwise the
   * promise resolves to {available} of the first channel named "text", and to
   * {available: false} when there is none. The value resolved is `available`.
   */
  method Settle(o: HttpOutcome) returns (r: Result<JsValue, ProbeError>)
    requires Settles(o)
    ensures o.RequestFailed? ==> r == Failure(RequestError(o.err))
    ensures o.Responded? && o.statusCode >= 300 ==> r == Failure(ServiceError(FromBody(o.body)))
    ensures o.Responded? && o.statusCode < 300 ==>
              var channels := Iterated(o.body);
              && r.Success?
              && ((exists k :: IsFirstText(channels, k) && r.value == Get(channels[k], "available"))
                  || ((forall j :: 0 <= j < |channels| ==> !IsTextChannel(channels[j])) && r.value == Bool(false)))
  {
    if o.RequestFailed? {
      return Failure(RequestError(o.err));
    }
    if o.statusCode >= 300 {
      return Failure(ServiceError(FromBody(o.body)));
    }
    var channels := Iterated(o.body);
    for i := 0 to |channels|
      invariant forall j :: 0 <= j < i ==> !IsTextChannel(channels[j])
    {
      if IsTextChannel(channels[i]) {
        assert IsFirstText(channels, i);
        return Success(Get(channels[i], "available"));
      }
    }
    return Success(Bool(false));
  }

  /**
   * An example input, not a general property: a null after the first text
   * channel is never read, so this body is accepted, and Settle's ensures then
   * give the `available` of that channel.
   */
  lemma NullAfterTextChannelSettles(available: JsValue)
    ensures Settles(Responded(200, Array([Object(map["channel" := Str("text"), "available" := available]), Null])))
  {
    var elems := [Object(map["channel" := Str("text"), "available" := available]), Null];
    assert IsTextChannel(elems[0]);
  }

  /** A string body has no text channel, so a successful response with one resolves to {available: false}. */
  lemma StringBodyIsUnavailable(s: string)
    ensures forall j :: 0 <= j < |Iterated(Str(s))| ==> !IsTextChannel(Iterated(Str(s))[j])
  {
  }
}
