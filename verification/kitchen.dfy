/**
 * The kitchen-sink example skill: tracer, an account-linking gate, a router
 * with every kind of route, and a fallback that ends the session. Its whole
 * behaviour is stated once more as `Expected`, built from wire records
 * directly, and `KitchenTurn` proves the two agree on every request, which
 * `KitchenPipe` states as its contract.
 */
module KitchenSink {
  import opened Wrappers
  import opened Deferred
  import opened Shapes
  import opened Normalise
  import opened Routing
  import opened Pipes

  datatype KState = Started | Other

  const CustomIntent: string := "MyCustomIntent"

  const HelloText: string := "Hello world"
  const HelpSsml: string := "<speak> try saying <emphasis>hello</emphasis> </speak>"
  const ByeText: string := "Bye!"
  const CustomText: string := "Something interesting"
  const LinkText: string := "Please link your account to use this skill."
  const UnhandledText: string := "Sorry, I don't seem able to respond to that right now."

  function PlainSpeech(text: string): Speech {
    Speech(Some(text), None)
  }

  // ------------------------------------------------------------------ routes

  function LaunchRoute(): IntentHandler<KState> {
    (state: KState, slots: Slots, event: RequestBody<KState>, next: Handler<KState>) =>
      Later(Ok(Desc(Response(Some(PlainSpeech(HelloText)), Some(Other), None, None, None))))
  }

  /** `SessionEnded` logs and returns `undefined`; the log line is not modelled. */
  function SessionEndedRoute(): () -> Eval<Reply<KState>> {
    () => Now(Ok(Void))
  }

  function HelpRoute(): IntentHandler<KState> {
    (state: KState, slots: Slots, event: RequestBody<KState>, next: Handler<KState>) =>
      Answer(Response(Some(Speech(None, Some(HelpSsml))), None, None, None, None))
  }

  function StopRoute(): IntentHandler<KState> {
    (state: KState, slots: Slots, event: RequestBody<KState>, next: Handler<KState>) =>
      Answer(Response(Some(PlainSpeech(ByeText)), None, None, None, Some(true)))
  }

  function CustomRoute(): IntentHandler<KState> {
    (state: KState, slots: Slots, event: RequestBody<KState>, next: Handler<KState>) =>
      Answer(Response(Some(PlainSpeech(CustomText)), None, None, None, Some(true)))
  }

  /** Launch and SessionEnded routes, Help and Stop as standard routes, one custom route. */
  function KitchenRoutes(): (r: Routes<KState>)
    ensures r.initialState == Started && r.launch.Some? && r.sessionEnded.Some?
    ensures forall k: StandardIntent :: k in r.standard <==> k == Help || k == Stop
    ensures |r.custom| == 1 && r.custom[0].0 == CustomIntent
  {
    Routes(
      Started,
      Some(LaunchRoute()),
      Some(SessionEndedRoute()),
      map[Help := HelpRoute(), Stop := StopRoute()],
      [(CustomIntent, CustomRoute())])
  }

  // ------------------------------------------------------- gate and fallback

  /** A linked account: the access token is truthy, so neither `null` nor empty. */
  predicate Authorised(event: RequestBody<KState>) {
    event.session.user.accessToken.Some? && event.session.user.accessToken.value != ""
  }

  const LinkDesc: Response<KState> := Response(Some(PlainSpeech(LinkText)), None, None, Some(LinkAccount), None)

  const FallbackDesc: Response<KState> := Response(Some(PlainSpeech(UnhandledText)), None, None, None, Some(true))

  /** `auth`: forwards a linked user, answers anyone else with the link-account card. */
  function Auth(): (r: Pipe<KState>)
    ensures forall event: RequestBody<KState>, next: Handler<KState> :: Authorised(event) ==> r(event, next) == next(event)
    ensures forall event: RequestBody<KState>, next: Handler<KState> :: !Authorised(event) ==> r(event, next) == LinkPrompt
  {
    assert MakeResponse(LinkDesc).Ok?;
    assert Respond(LinkDesc, None) == LinkPrompt;
    (event: RequestBody<KState>, next: Handler<KState>) =>
      if Authorised(event) then next(event) else Respond(LinkDesc, None)
  }

  /** `unhandled`: a handler placed as the last pipe, so `next` is never called. */
  function Fallback(): (r: Pipe<KState>)
    ensures forall event: RequestBody<KState>, next: Handler<KState> :: r(event, next) == FallbackReply
  {
    assert MakeResponse(FallbackDesc).Ok?;
    assert Respond(FallbackDesc, None) == FallbackReply;
    (event: RequestBody<KState>, next: Handler<KState>) => Respond(FallbackDesc, None)
  }

  /** The exported chain: tracer, gate, router, fallback. */
  function KitchenSteps(): seq<Pipe<KState>> {
    [Tracer(), Auth(), Router(KitchenRoutes()), Fallback()]
  }

  /** The exported handler, which answers every request as `Expected` writes out. */
  function KitchenPipe(): (r: Handler<KState>)
    ensures forall event: RequestBody<KState> {:trigger Expected(event)} :: r(event) == Expected(event)
  {
    KitchenAnswers();
    HandlerPipe(KitchenSteps())
  }

  // --------------------------------------------------------------- reference

  /** A wire body with one speech, no reprompt, and the state stored when there is one. */
  function WireBody(speech: OutputSpeech, card: Option<WireCard>, ends: bool, stored: Option<KState>): Reply<KState> {
    var attributes: map<string, KState> := if stored.Some? then map[AttributeKey := stored.value] else map[];
    Body(ResponseBody(ResponseVersion, Some(attributes), WireResponse(Some(speech), card, None, ends)))
  }

  const LinkPrompt: Eval<Reply<KState>> := Now(Ok(WireBody(PlainText(LinkText), Some(LinkAccountCard), false, None)))

  const FallbackReply: Eval<Reply<KState>> := Now(Ok(WireBody(PlainText(UnhandledText), None, true, None)))

  /**
   * What the skill answers, written out per request kind: it never throws, only
   * Launch answers through a promise, and only SessionEnded answers `undefined`.
   */
  function Expected(event: RequestBody<KState>): (r: Eval<Reply<KState>>)
    ensures r.value.Ok?
    ensures r.Later? <==> Authorised(event) && event.request.LaunchRequest?
    ensures r.value.value.Void? <==> Authorised(event) && event.request.SessionEndedRequest?
  {
    var state := FromRequest(event, Started);
    if !Authorised(event) then LinkPrompt
    else
      match event.request
      case LaunchRequest(_, _) => Later(Ok(WireBody(PlainText(HelloText), None, false, Some(Other))))
      case SessionEndedRequest(_, _, _) => Now(Ok(Void))
      case IntentRequest(_, _, intent) =>
        if intent.name == IntentName(Help) then Now(Ok(WireBody(Ssml(HelpSsml), None, false, Some(state))))
        else if intent.name == IntentName(Stop) then Now(Ok(WireBody(PlainText(ByeText), None, true, Some(state))))
        else if intent.name == CustomIntent then Now(Ok(WireBody(PlainText(CustomText), None, true, Some(state))))
        else FallbackReply
      case OtherRequest(_, _, _) => FallbackReply
  }

  // ------------------------------------------------------------------ lemmas

  /** `auth` forwards a request exactly when the account is linked. */
  lemma AuthForwardsIffLinked(event: RequestBody<KState>)
    ensures ForwardsOn(Auth(), event) <==> Authorised(event)
    ensures !Authorised(event) ==> forall next: Handler<KState> :: Auth()(event, next) == LinkPrompt
  {
    if !Authorised(event) {
      assert Auth()(event, Unhandled()) != Unhandled()(event);
    }
  }

  /** Without a linked account the chain stops at the gate, whatever follows it. */
  lemma UnlinkedGetsLinkPrompt(event: RequestBody<KState>)
    requires !Authorised(event)
    ensures HandlerPipe(KitchenSteps())(event) == LinkPrompt
  {
    var steps := KitchenSteps();
    TracerAndDoNothingForward(event);
    AuthForwardsIffLinked(event);
    assert ForwardsOn(steps[0], event);
    assert forall next: Handler<KState> :: steps[1](event, next) == LinkPrompt;
    ShortCircuit(steps, 1, event, LinkPrompt);
    assert HandlerPipe(steps)(event) == Join(steps)(event, Unhandled());
  }

  /** With a linked account, the chain is the router with the fallback as its `next`. */
  lemma LinkedReachesRouter(event: RequestBody<KState>)
    requires Authorised(event)
    ensures HandlerPipe(KitchenSteps())(event) == Route(KitchenRoutes(), event, ProcessNext([Fallback()], Unhandled()))
    ensures ProcessNext([Fallback()], Unhandled())(event) == FallbackReply
  {
    var steps := KitchenSteps();
    TracerAndDoNothingForward(event);
    AuthForwardsIffLinked(event);
    JoinRunsInOrder(steps, 2, event, Unhandled());
    assert steps[3..] == [Fallback()];
    assert [Fallback()][1..] == [];
    assert ProcessNext([Fallback()], Unhandled())(event) == Fallback()(event, ProcessNext([Fallback()][1..], Unhandled()));
  }

  /** A text or SSML description a route answers with becomes a body storing the pre-turn state. */
  lemma Normalises(result: Eval<Reply<KState>>, desc: Response<KState>, state: KState, speech: OutputSpeech, ends: bool)
    requires result == Now(Ok(Desc(desc)))
    requires desc.say.Some? && MakeSpeech(desc.say.value) == Ok(speech)
    requires desc.newState.None? && desc.reprompt.None? && desc.card.None?
    requires ends == (desc.endSession == Some(true))
    ensures MapIntentResult(result, state) == Now(Ok(WireBody(speech, None, ends, Some(state))))
  {
  }

  /** A standard route answers the request named after its key. */
  lemma StandardAnswers(event: RequestBody<KState>, next: Handler<KState>, k: StandardIntent)
    requires event.request.IntentRequest? && event.request.intent.name == IntentName(k)
    requires k in KitchenRoutes().standard
    ensures var state := FromRequest(event, Started);
      Route(KitchenRoutes(), event, next)
        == MapIntentResult(KitchenRoutes().standard[k](state, SlotsToMap(event.request.intent.slots), event, next), state)
  {
    StandardNameRoundTrip(k, event.request.intent.name);
  }

  /** The Help route answers with its SSML and keeps the state. */
  lemma HelpTurn(event: RequestBody<KState>, next: Handler<KState>)
    requires event.request.IntentRequest? && event.request.intent.name == IntentName(Help)
    ensures Route(KitchenRoutes(), event, next)
      == Now(Ok(WireBody(Ssml(HelpSsml), None, false, Some(FromRequest(event, Started)))))
  {
    var state := FromRequest(event, Started);
    var slots := SlotsToMap(event.request.intent.slots);
    StandardAnswers(event, next, Help);
    Normalises(HelpRoute()(state, slots, event, next), Response(Some(Speech(None, Some(HelpSsml))), None, None, None, None),
               state, Ssml(HelpSsml), false);
  }

  /** The Stop route says goodbye, ends the session and keeps the state. */
  lemma StopTurn(event: RequestBody<KState>, next: Handler<KState>)
    requires event.request.IntentRequest? && event.request.intent.name == IntentName(Stop)
    ensures Route(KitchenRoutes(), event, next)
      == Now(Ok(WireBody(PlainText(ByeText), None, true, Some(FromRequest(event, Started)))))
  {
    var state := FromRequest(event, Started);
    var slots := SlotsToMap(event.request.intent.slots);
    StandardAnswers(event, next, Stop);
    Normalises(StopRoute()(state, slots, event, next), Response(Some(PlainSpeech(ByeText)), None, None, None, Some(true)),
               state, PlainText(ByeText), true);
  }

  /** `MyCustomIntent` is no platform name, so the custom route answers it. */
  lemma CustomTurn(event: RequestBody<KState>, next: Handler<KState>)
    requires event.request.IntentRequest? && event.request.intent.name == CustomIntent
    ensures Route(KitchenRoutes(), event, next)
      == Now(Ok(WireBody(PlainText(CustomText), None, true, Some(FromRequest(event, Started)))))
  {
    var state := FromRequest(event, Started);
    var slots := SlotsToMap(event.request.intent.slots);
    assert CustomIntent[..|IntentPrefix|][0] != IntentPrefix[0];
    assert !StandardClaims(KitchenRoutes(), CustomIntent);
    assert IsLast(KitchenRoutes().custom, 0);
    Normalises(CustomRoute()(state, slots, event, next), Response(Some(PlainSpeech(CustomText)), None, None, None, Some(true)),
               state, PlainText(CustomText), true);
  }

  /** Launch answers asynchronously and moves the state to `Other`. */
  lemma LaunchTurn(event: RequestBody<KState>, next: Handler<KState>)
    requires event.request.LaunchRequest?
    ensures Route(KitchenRoutes(), event, next) == Later(Ok(WireBody(PlainText(HelloText), None, false, Some(Other))))
  {
    var state := FromRequest(event, Started);
    var desc := Response(Some(PlainSpeech(HelloText)), Some(Other), None, None, None);
    assert LaunchRoute()(state, map[], event, next) == Later(Ok(Desc(desc)));
    assert BuildRequestIfNeeded(Desc(desc), state) == Ok(WireBody(PlainText(HelloText), None, false, Some(Other)));
  }

  /** An intent neither table registers reaches `next`. */
  lemma OtherIntentUnclaimed(event: RequestBody<KState>, next: Handler<KState>)
    requires event.request.IntentRequest?
    requires event.request.intent.name !in {IntentName(Help), IntentName(Stop), CustomIntent}
    ensures Route(KitchenRoutes(), event, next) == next(event)
  {
    var name := event.request.intent.name;
    if StandardClaims(KitchenRoutes(), name) {
      StandardNameRoundTrip(StandardFromName(name).value, name);
    }
    assert !CustomClaims(KitchenRoutes(), name);
  }

  /** On every request, the chain answers exactly what `Expected` writes out. */
  lemma KitchenTurn(event: RequestBody<KState>)
    ensures HandlerPipe(KitchenSteps())(event) == Expected(event)
  {
    if !Authorised(event) {
      UnlinkedGetsLinkPrompt(event);
    } else {
      var next := ProcessNext([Fallback()], Unhandled());
      LinkedReachesRouter(event);
      match event.request
      case LaunchRequest(_, _) => LaunchTurn(event, next);
      case SessionEndedRequest(_, _, _) =>
      case OtherRequest(_, _, _) =>
      case IntentRequest(_, _, intent) =>
        if intent.name == IntentName(Help) {
          HelpTurn(event, next);
        } else if intent.name == IntentName(Stop) {
          StopTurn(event, next);
        } else if intent.name == CustomIntent {
          CustomTurn(event, next);
        } else {
          OtherIntentUnclaimed(event, next);
        }
    }
  }

  /** `KitchenTurn` for every request at once. */
  lemma KitchenAnswers()
    ensures forall event: RequestBody<KState> :: HandlerPipe(KitchenSteps())(event) == Expected(event)
  {
    forall event: RequestBody<KState> {
      KitchenTurn(event);
    }
  }

  /** Nothing but Launch changes the state, and the gate and the fallback store none. */
  lemma OnlyLaunchMovesState(event: RequestBody<KState>)
    ensures var out := KitchenPipe()(event);
      out.value.Ok? && out.value.value.Body? && out.value.value.body.sessionAttributes.Some?
      && AttributeKey in out.value.value.body.sessionAttributes.value ==>
        out.value.value.body.sessionAttributes.value[AttributeKey]
          == (if event.request.LaunchRequest? then Other else FromRequest(event, Started))
    ensures var out := KitchenPipe()(event);
      !Authorised(event) || !(event.request.LaunchRequest? || event.request.IntentRequest?) ==>
        out.value.Ok? && (out.value.value.Body? ==> out.value.value.body.sessionAttributes == Some(map[]))
  {
    assert KitchenPipe()(event) == Expected(event);
  }
}
