/**
 * The Chat constructor's handling of its options argument (index.js:24-44):
 * defaults are merged under the given options, then customerId and
 * signedContext are validated and an object-valued unsignedContext is
 * serialised. Also the argument tuple of the createChat remote call
 * (index.js:92-93).
 */
module ChatOptions {
  import opened Wrappers
  import opened JsValues

  const DefaultTopic := "<no topic>"
  const DefaultTeam := "default"
  const DefaultUrl := "wss://touchpoint.telviva.com/websocket"

  const CustomerIdError := "customerId must be a string"
  const SignedContextError := "signedContext must be a string, if present"

  /** The options after defaulting: what the rest of the constructor reads. */
  datatype Options = Options(
    customerId: string,
    topic: JsValue,
    team: JsValue,
    signedContext: JsValue,
    signature: JsValue,
    unsignedContext: JsValue,
    url: JsValue,
    proxy: JsValue)

  /** The defaults object that the given options are assigned over. */
  const Defaults: Fields := map[
    "topic" := Str(DefaultTopic),
    "team" := Str(DefaultTeam),
    "signedContext" := Null,
    "signature" := Null,
    "unsignedContext" := Null,
    "url" := Str(DefaultUrl),
    "proxy" := Null]

  /** The value an option ends up with: the given one when the key is present (even if it is undefined), else d. */
  function GivenOr(given: Fields, key: string, d: JsValue): JsValue
  {
    if key in given then given[key] else d
  }

  /** signedContext is refused when it is present (neither null nor undefined) and not a string. */
  predicate BadSignedContext(v: JsValue)
  {
    !IsNullish(v) && TypeOf(v) != "string"
  }

  /** unsignedContext after the constructor's rewrite: any value whose typeof is "object", null included, is serialised. */
  function SentUnsignedContext(v: JsValue, serialize: JsValue -> string): JsValue
  {
    if TypeOf(v) == "object" then Str(serialize(v)) else v
  }

  /**
   * Normalisation as the constructor performs it. `given` is the own
   * enumerable properties of the options argument (a missing or null argument
   * is the empty map, as Object.assign skips it); `serialize` stands for
   * JSON.stringify. A Failure is the synchronous throw, with its message.
   */
  function Normalise(given: Fields, serialize: JsValue -> string): (r: Result<Options, string>)
    ensures r.Failure? <==>
              TypeOf(GivenOr(given, "customerId", Undefined)) != "string"
              || BadSignedContext(GivenOr(given, "signedContext", Null))
    // the customerId check comes first
    ensures r.Failure? ==>
              r.error == (if TypeOf(GivenOr(given, "customerId", Undefined)) != "string"
                          then CustomerIdError else SignedContextError)
    ensures r.Success? ==>
              && Str(r.value.customerId) == given["customerId"]
              && r.value.topic == GivenOr(given, "topic", Str(DefaultTopic))
              && r.value.team == GivenOr(given, "team", Str(DefaultTeam))
              && r.value.signedContext == GivenOr(given, "signedContext", Null)
              && r.value.signature == GivenOr(given, "signature", Null)
              && r.value.unsignedContext == SentUnsignedContext(GivenOr(given, "unsignedContext", Null), serialize)
              && r.value.url == GivenOr(given, "url", Str(DefaultUrl))
              && r.value.proxy == GivenOr(given, "proxy", Null)
    // what is sent as unsignedContext is never an object
    ensures r.Success? ==> TypeOf(r.value.unsignedContext) != "object"
  {
    var merged := Defaults + given;
    var customerId := Prop(merged, "customerId");
    if TypeOf(customerId) != "string" then
      Failure(CustomerIdError)
    else
      var unsignedContext := SentUnsignedContext(Prop(merged, "unsignedContext"), serialize);
      var signedContext := Prop(merged, "signedContext");
      if BadSignedContext(signedContext) then
        Failure(SignedContextError)
      else
        Success(Options(customerId.s, Prop(merged, "topic"), Prop(merged, "team"), signedContext,
                        Prop(merged, "signature"), unsignedContext, Prop(merged, "url"), Prop(merged, "proxy")))
  }

  /** The arguments of the createChat remote call, in wire order; the channel is always "text". */
  function CreateChatArgs(o: Options): seq<JsValue>
  {
    [Str(o.customerId), o.topic, o.team, Str("text"), o.signedContext, o.signature, o.unsignedContext]
  }

  /**
   * With only a customerId given, every other option takes its default; the
   * default null unsignedContext is serialised too, so it is sent as "null".
   */
  lemma DefaultsFillMissing(customerId: string, serialize: JsValue -> string)
    requires serialize(Null) == "null"
    ensures Normalise(map["customerId" := Str(customerId)], serialize)
            == Success(Options(customerId, Str(DefaultTopic), Str(DefaultTeam), Null, Null, Str("null"), Str(DefaultUrl), Null))
  {
  }

  /** The keys the defaults object supplies. */
  predicate DefaultedKey(key: string)
  {
    key == "topic" || key == "team" || key == "signedContext" || key == "signature"
    || key == "unsignedContext" || key == "url" || key == "proxy"
  }

  /**
   * An option explicitly given as undefined is not defaulted, whichever of the
   * defaulted options it is: Object.assign copies it over the default, and
   * neither validation nor the unsignedContext rewrite touches undefined.
   */
  lemma ExplicitUndefinedIsKept(given: Fields, key: string, serialize: JsValue -> string)
    requires DefaultedKey(key)
    requires "customerId" in given && given["customerId"].Str?
    requires key in given && given[key] == Undefined
    requires !BadSignedContext(GivenOr(given, "signedContext", Null))
    ensures Normalise(given, serialize).Success?
    ensures key == "topic" ==> Normalise(given, serialize).value.topic == Undefined
    ensures key == "team" ==> Normalise(given, serialize).value.team == Undefined
    ensures key == "signedContext" ==> Normalise(given, serialize).value.signedContext == Undefined
    ensures key == "signature" ==> Normalise(given, serialize).value.signature == Undefined
    ensures key == "unsignedContext" ==> Normalise(given, serialize).value.unsignedContext == Undefined
    ensures key == "url" ==> Normalise(given, serialize).value.url == Undefined
    ensures key == "proxy" ==> Normalise(given, serialize).value.proxy == Undefined
  {
  }
}
