/**
 * The response normaliser: expands a compact `Response<State>` description into
 * the wire response body, and reads and writes the session state under the one
 * attribute key the router reserves.
 */
module Normalise {
  import opened Wrappers
  import opened Deferred
  import opened Shapes

  /** The session attribute under which the state is stored between turns. */
  const AttributeKey: string := "_alexaTsState"

  const ResponseVersion: string := "1.0"

  const NoSpeechMessage: string := "Speech contains neither text nor SSML."

  // ------------------------------------------------------------------ speech

  /** `makeSpeech`: SSML wins whenever it is given at all, even empty; neither is an error. */
  function MakeSpeech(speech: Speech): (r: Result<OutputSpeech>)
    ensures speech.ssml.Some? ==> r == Ok(Ssml(speech.ssml.value))
    ensures speech.ssml.None? && speech.text.Some? ==> r == Ok(PlainText(speech.text.value))
    ensures r.Err? <==> speech.ssml.None? && speech.text.None?
    ensures r.Err? ==> r.error == Error(NoSpeechMessage)
  {
    if speech.ssml.Some? then
      Ok(Ssml(speech.ssml.value))
    else if speech.text.Some? then
      Ok(PlainText(speech.text.value))
    else
      Err(Error(NoSpeechMessage))
  }

  /** The description a wire speech could have come from. */
  function SpeechOf(output: OutputSpeech): Speech {
    match output
    case PlainText(t) => Speech(Some(t), None)
    case Ssml(m) => Speech(None, Some(m))
  }

  /** Every wire speech is produced by its own description, so `MakeSpeech` loses no output shape. */
  lemma MakeSpeechOnto(output: OutputSpeech)
    ensures MakeSpeech(SpeechOf(output)) == Ok(output)
  {
  }

  /** The text the wire speech carries is the markup if any was given, else the plain text. */
  lemma MakeSpeechKeepsContent(speech: Speech)
    requires speech.ssml.Some? || speech.text.Some?
    ensures MakeSpeech(speech).Ok?
    ensures SpeechOf(MakeSpeech(speech).value).ssml == speech.ssml
    ensures speech.ssml.None? ==> SpeechOf(MakeSpeech(speech).value) == speech
  {
  }

  // -------------------------------------------------------------------- card

  /** `makeCard`: the card variant is picked by the `LinkAccount` type, then by an image. */
  function MakeCard(card: Card): (r: WireCard)
    ensures card.LinkAccount? <==> r.LinkAccountCard?
    ensures card.ContentCard? && card.image.Some? ==>
      r == StandardCard(card.title, card.content,
                        Image(card.image.value.smallUrl, card.image.value.largeUrl))
    ensures card.ContentCard? && card.image.None? ==> r == SimpleCard(card.title, card.content)
  {
    match card
    case LinkAccount => LinkAccountCard
    case ContentCard(title, content, image) =>
      if image.Some? then
        StandardCard(title, content, Image(image.value.smallUrl, image.value.largeUrl))
      else
        SimpleCard(title, content)
  }

  /** The description a wire card comes from. */
  function CardOf(card: WireCard): Card {
    match card
    case SimpleCard(title, content) => ContentCard(title, content, None)
    case StandardCard(title, text, image) =>
      ContentCard(title, text, Some(CardImage(image.smallImageUrl, image.largeImageUrl)))
    case LinkAccountCard => LinkAccount
  }

  /** `MakeCard` and `CardOf` are inverse: no field of a card is lost or invented. */
  lemma MakeCardBijective(card: Card, wire: WireCard)
    ensures CardOf(MakeCard(card)) == card
    ensures MakeCard(CardOf(wire)) == wire
  {
  }

  // ---------------------------------------------------------------- response

  /**
   * `makeResponse`: `shouldEndSession` is `EndSession || false`, and speech,
   * reprompt and card appear exactly when the description has them.
   */
  function MakeResponse<S>(desc: Response<S>): (r: Result<WireResponse>)
    ensures r.Ok? <==> (desc.say.Some? ==> MakeSpeech(desc.say.value).Ok?)
                       && (desc.reprompt.Some? ==> MakeSpeech(desc.reprompt.value).Ok?)
    ensures r.Err? ==> r.error == Error(NoSpeechMessage)
    ensures r.Ok? ==> r.value.shouldEndSession == (desc.endSession == Some(true))
    ensures r.Ok? ==> (r.value.outputSpeech.Some? <==> desc.say.Some?)
    ensures r.Ok? && desc.say.Some? ==> r.value.outputSpeech.value == MakeSpeech(desc.say.value).value
    ensures r.Ok? ==> (r.value.reprompt.Some? <==> desc.reprompt.Some?)
    ensures r.Ok? && desc.reprompt.Some? ==>
      r.value.reprompt.value.outputSpeech == MakeSpeech(desc.reprompt.value).value
    ensures r.Ok? ==> (r.value.card.Some? <==> desc.card.Some?)
    ensures r.Ok? && desc.card.Some? ==> r.value.card.value == MakeCard(desc.card.value)
  {
    var shouldEnd := if desc.endSession.Some? then desc.endSession.value else false;
    var say := if desc.say.Some? then Some(MakeSpeech(desc.say.value)) else None;
    var reprompt := if desc.reprompt.Some? then Some(MakeSpeech(desc.reprompt.value)) else None;
    if say.Some? && say.value.Err? then
      Err(say.value.error)
    else if reprompt.Some? && reprompt.value.Err? then
      Err(reprompt.value.error)
    else
      Ok(WireResponse(
        if say.Some? then Some(say.value.value) else None,
        if desc.card.Some? then Some(MakeCard(desc.card.value)) else None,
        if reprompt.Some? then Some(Reprompt(reprompt.value.value)) else None,
        shouldEnd))
  }

  /** A description that normalises to the given wire response. */
  function DescribeWire<S>(wire: WireResponse): Response<S> {
    Response(
      if wire.outputSpeech.Some? then Some(SpeechOf(wire.outputSpeech.value)) else None,
      None,
      if wire.reprompt.Some? then Some(SpeechOf(wire.reprompt.value.outputSpeech)) else None,
      if wire.card.Some? then Some(CardOf(wire.card.value)) else None,
      Some(wire.shouldEndSession))
  }

  /** Every wire response is reachable from some description: the normaliser is onto. */
  lemma MakeResponseOnto<S>(wire: WireResponse)
    ensures MakeResponse<S>(DescribeWire(wire)) == Ok(wire)
  {
    var desc := DescribeWire<S>(wire);
    if wire.outputSpeech.Some? {
      MakeSpeechOnto(wire.outputSpeech.value);
    }
    if wire.reprompt.Some? {
      MakeSpeechOnto(wire.reprompt.value.outputSpeech);
    }
    if wire.card.Some? {
      MakeCardBijective(CardOf(wire.card.value), wire.card.value);
    }
  }

  // ------------------------------------------------------------ session state

  /** `State.fromRequest`: the stored state if the reserved key is present, else `initial`. */
  function FromRequest<S>(request: RequestBody<S>, initial: S): (r: S)
    ensures AttributeKey in request.session.attributes ==> r == request.session.attributes[AttributeKey]
    ensures AttributeKey !in request.session.attributes ==> r == initial
  {
    StateIn(request.session.attributes, initial)
  }

  /** The state a set of session attributes holds: the reserved entry, else `initial`. */
  function StateIn<S>(attributes: map<string, S>, initial: S): S {
    if AttributeKey in attributes then attributes[AttributeKey] else initial
  }

  /**
   * `sessionAttributesFromResponse`: built from an empty map, it holds the new
   * state, else the previous one when that is defined, and never any other key.
   */
  function SessionAttributesFromResponse<S>(desc: Response<S>, previous: Option<S>): (r: map<string, S>)
    ensures r.Keys <= {AttributeKey}
    ensures AttributeKey in r <==> desc.newState.Some? || previous.Some?
    ensures desc.newState.Some? ==> r[AttributeKey] == desc.newState.value
    ensures desc.newState.None? && previous.Some? ==> r[AttributeKey] == previous.value
  {
    var empty: map<string, S> := map[];
    if desc.newState.Some? then
      empty[AttributeKey := desc.newState.value]
    else if previous.Some? then
      empty[AttributeKey := previous.value]
    else
      empty
  }

  /** `response`: version 1.0, the normalised response, and the state attribute. */
  function BuildResponse<S>(desc: Response<S>, previous: Option<S>): (r: Result<ResponseBody<S>>)
    ensures r.Ok? <==> MakeResponse(desc).Ok?
    ensures r.Err? ==> r.error == MakeResponse(desc).error
    ensures r.Ok? ==> r.value.version == ResponseVersion
    ensures r.Ok? ==> r.value.response == MakeResponse(desc).value
    ensures r.Ok? ==> r.value.sessionAttributes == Some(SessionAttributesFromResponse(desc, previous))
  {
    var response := MakeResponse(desc);
    if response.Err? then
      Err(response.error)
    else
      Ok(ResponseBody(ResponseVersion, Some(SessionAttributesFromResponse(desc, previous)), response.value))
  }

  /** `response(...)` called from inside a handler or pipe: its result, or its throw, right away. */
  function Respond<S>(desc: Response<S>, previous: Option<S>): (r: Eval<Reply<S>>)
    ensures r.Now?
    ensures r.value.Ok? <==> BuildResponse(desc, previous).Ok?
    ensures r.value.Ok? ==> r.value.value == Body(BuildResponse(desc, previous).value)
    ensures r.value.Err? ==> r.value.error == Error(NoSpeechMessage)
  {
    var body := BuildResponse(desc, previous);
    if body.Ok? then Now(Ok(Body(body.value))) else Now(Err(body.error))
  }

  /**
   * State hand-off: a request carrying the attributes a response wrote reads back
   * the new state, else the previous one, else the initial state.
   */
  lemma StateHandOff<S>(desc: Response<S>, previous: Option<S>, next: RequestBody<S>, initial: S)
    requires next.session.attributes == SessionAttributesFromResponse(desc, previous)
    ensures FromRequest(next, initial) == desc.newState.GetOr(previous.GetOr(initial))
  {
    if desc.newState.None? && previous.None? {
      assert AttributeKey !in next.session.attributes;
    }
  }
}
