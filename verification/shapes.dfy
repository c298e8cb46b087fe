/**
 * The records the engine passes around: the inbound request body, the compact
 * response description a handler writes, the wire response the host receives,
 * and the function types of handlers and pipes. `S` is the skill's state type.
 */
module Shapes {
  import opened Wrappers
  import opened Deferred

  // ---------------------------------------------------------------- request

  /** `accessToken` is `null` (None) until the user links an account. */
  datatype User = User(userId: string, accessToken: Option<string>)

  /**
   * One conversation as the host reports it on every turn. `attributes` is the
   * map the host keeps between turns; an absent map is read as an empty one.
   */
  datatype Session<S> = Session(
    isNew: bool,
    sessionId: string,
    applicationId: string,
    attributes: map<string, S>,
    user: User)

  /** A slot as the platform sends it; `value` is absent when the slot was not filled. */
  datatype Slot = Slot(name: string, value: Option<string>)

  /**
   * The raw `intent.slots` field: an object of schema key to slot, listed in the
   * object's key order, or something that is not an object at all.
   */
  datatype RawSlots = NotAnObject | SlotObject(entries: seq<(string, Slot)>)

  datatype Intent = Intent(name: string, slots: RawSlots)

  datatype SessionEndedReason = UserInitiated | ErrorReason | ExceededMaxReprompts

  /** The `request` part of a body, discriminated by its `type` field. */
  datatype Request =
    | LaunchRequest(requestId: string, timeStamp: string)
    | IntentRequest(requestId: string, timeStamp: string, intent: Intent)
    | SessionEndedRequest(requestId: string, timeStamp: string, reason: SessionEndedReason)
    | OtherRequest(requestType: string, requestId: string, timeStamp: string)

  datatype RequestBody<S> = RequestBody(version: string, session: Session<S>, request: Request)

  // ---------------------------------------------------- response description

  /** `Speech`: plain text, SSML markup, both, or (erroneously) neither. */
  datatype Speech = Speech(text: Option<string>, ssml: Option<string>)

  datatype CardImage = CardImage(smallUrl: string, largeUrl: string)

  /** `Card`: the account-linking prompt, or a titled card with an optional image. */
  datatype Card = LinkAccount | ContentCard(title: string, content: string, image: Option<CardImage>)

  /** `Response<State>`: the short-hand reply a handler returns; every field optional. */
  datatype Response<S> = Response(
    say: Option<Speech>,
    newState: Option<S>,
    reprompt: Option<Speech>,
    card: Option<Card>,
    endSession: Option<bool>)

  // ---------------------------------------------------------- wire response

  datatype OutputSpeech = PlainText(text: string) | Ssml(ssml: string)

  datatype Image = Image(smallImageUrl: string, largeImageUrl: string)

  /** The wire `card`, one constructor per value of its `type` field. */
  datatype WireCard =
    | SimpleCard(title: string, content: string)
    | StandardCard(title: string, text: string, image: Image)
    | LinkAccountCard

  datatype Reprompt = Reprompt(outputSpeech: OutputSpeech)

  datatype WireResponse = WireResponse(
    outputSpeech: Option<OutputSpeech>,
    card: Option<WireCard>,
    reprompt: Option<Reprompt>,
    shouldEndSession: bool)

  datatype ResponseBody<S> = ResponseBody(
    version: string,
    sessionAttributes: Option<map<string, S>>,
    response: WireResponse)

  // -------------------------------------------------- handlers and pipes

  /**
   * What a handler or pipe may hand back at run time: a wire body, a response
   * description that was not expanded, or `undefined`.
   */
  datatype Reply<S> = Body(body: ResponseBody<S>) | Desc(desc: Response<S>) | Void

  /** Slot name to slot value, rebuilt on every intent request. */
  type Slots = map<string, Option<string>>

  type Handler<!S> = RequestBody<S> -> Eval<Reply<S>>

  /** An interceptor: sees the request and the rest of the chain as `next`. */
  type Pipe<!S> = (RequestBody<S>, Handler<S>) -> Eval<Reply<S>>

  /** A route: previous state, slots, the request and the rest of the chain. */
  type IntentHandler<!S> = (S, Slots, RequestBody<S>, Handler<S>) -> Eval<Reply<S>>

  /** A route that returns a description right away, for the router to expand. */
  function Answer<S>(desc: Response<S>): Eval<Reply<S>> {
    Now(Ok(Desc(desc)))
  }

  /** Looks a slot up the way `Map.get` does: an unknown name reads as `undefined`. */
  function SlotValue(slots: Slots, name: string): Option<string> {
    if name in slots then slots[name] else None
  }
}
