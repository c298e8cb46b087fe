/**
 * The testing helpers: fake request parts with fixed identifiers, the request
 * builders a test may override, and a session simulator that plays turns
 * against a handler the way the host would, carrying attributes between turns.
 */
module Testing {
  import opened Wrappers
  import opened Deferred
  import opened Shapes
  import opened Normalise
  import opened Routing
  import opened Pipes
  import opened Text

  const FakeUserId: string := "amzn1.ask.account.FAKEACCOUNTID"
  const FakeRequestId: string := "amzn1.echo-api.request.d15314a4-3a86-4d5a-90b0-5adb6a5b5ce7"
  const FakeSessionId: string := "amzn1.echo-api.session.bcea274f-0dd8-43ac-8369-e102f881b42e"
  const FakeApplicationId: string := "amzn1.ask.skill.659a0b41-d887-45b0-a158-01b3d2214d5a"
  const RequestVersion: string := "1.0"

  // -------------------------------------------------------------- fake parts

  /** `Fake.requestBody`: a version 1.0 request around a session and a request. */
  function FakeRequestBody<S>(session: Session<S>, request: Request): (r: RequestBody<S>)
    ensures r.version == RequestVersion && r.session == session && r.request == request
  {
    RequestBody(RequestVersion, session, request)
  }

  /** `Fake.launchRequest`; `now` is the reading of the clock. */
  function FakeLaunchRequest(now: string): (r: Request)
    ensures r.LaunchRequest? && r.requestId == FakeRequestId && r.timeStamp == now
  {
    LaunchRequest(FakeRequestId, now)
  }

  /** `Fake.intentRequest`: the intent name as given, and an empty slot object when none is given. */
  function FakeIntentRequest(now: string, name: string, slots: Option<seq<(string, Slot)>>): (r: Request)
    ensures r.IntentRequest? && r.intent.name == name
    ensures r.intent.slots == SlotObject(slots.GetOr([]))
    ensures SlotsToMap(r.intent.slots) == map[] <==> slots.None? || |slots.value| == 0
  {
    var r := IntentRequest(FakeRequestId, now, Intent(name, SlotObject(slots.GetOr([]))));
    assert slots.Some? && |slots.value| > 0 ==> slots.value[0].1.name in SlotsToMap(r.intent.slots);
    r
  }

  /** `Fake.sessionEnded`: the reason defaults to a user-initiated end. */
  function FakeSessionEnded(now: string, reason: Option<SessionEndedReason>): (r: Request)
    ensures r.SessionEndedRequest? && r.reason == reason.GetOr(UserInitiated)
    ensures reason.Some? ==> r.reason == reason.value
  {
    SessionEndedRequest(FakeRequestId, now, reason.GetOr(UserInitiated))
  }

  /** `Fake.session`: a new session with no attributes and no linked account. */
  function FakeSession<S>(): (r: Session<S>)
    ensures r.isNew && r.attributes == map[] && r.user.accessToken.None?
    ensures r.user.userId == FakeUserId && r.sessionId == FakeSessionId
  {
    Session(true, FakeSessionId, FakeApplicationId, map[], User(FakeUserId, None))
  }

  // ---------------------------------------------------------------- builders

  /** `Builders` with every entry filled in. */
  datatype Builders<S> = Builders(
    launchRequest: () -> Request,
    intentRequest: (string, Option<seq<(string, Slot)>>) -> Request,
    sessionEndedRequest: Option<SessionEndedReason> -> Request,
    session: () -> Session<S>)

  /** `Builders` as a test supplies them: any entry may be missing. */
  datatype CustomBuilders<S> = CustomBuilders(
    launchRequest: Option<() -> Request>,
    intentRequest: Option<(string, Option<seq<(string, Slot)>>) -> Request>,
    sessionEndedRequest: Option<Option<SessionEndedReason> -> Request>,
    session: Option<() -> Session<S>>)

  /**
   * `defaultBuilders`: the fakes, stamped with the clock reading `now`. Every
   * request they build carries the fixed request id; the session is fresh.
   */
  function DefaultBuilders<S>(now: string): (r: Builders<S>)
    ensures r.launchRequest().LaunchRequest? && r.launchRequest().timeStamp == now
    ensures forall name: string, slots: Option<seq<(string, Slot)>> ::
      r.intentRequest(name, slots).IntentRequest? && r.intentRequest(name, slots).intent.name == name
      && r.intentRequest(name, slots).intent.slots == SlotObject(slots.GetOr([]))
    ensures forall reason: Option<SessionEndedReason> ::
      r.sessionEndedRequest(reason).SessionEndedRequest? && r.sessionEndedRequest(reason).reason == reason.GetOr(UserInitiated)
    ensures r.session().isNew && r.session().attributes == map[] && r.session().user.accessToken.None?
  {
    Builders(
      () => FakeLaunchRequest(now),
      (name: string, slots: Option<seq<(string, Slot)>>) => FakeIntentRequest(now, name, slots),
      (reason: Option<SessionEndedReason>) => FakeSessionEnded(now, reason),
      () => FakeSession())
  }

  /** `extendBuilders`: every supplied entry replaces the default; the others stay. */
  function ExtendBuilders<S>(now: string, custom: Option<CustomBuilders<S>>): (r: Builders<S>)
    ensures custom.None? ==> r == DefaultBuilders(now)
    ensures custom.Some? ==>
      r.launchRequest == custom.value.launchRequest.GetOr(DefaultBuilders<S>(now).launchRequest)
      && r.intentRequest == custom.value.intentRequest.GetOr(DefaultBuilders<S>(now).intentRequest)
      && r.sessionEndedRequest == custom.value.sessionEndedRequest.GetOr(DefaultBuilders<S>(now).sessionEndedRequest)
      && r.session == custom.value.session.GetOr(DefaultBuilders<S>(now).session)
  {
    var builders := DefaultBuilders(now);
    match custom
    case None => builders
    case Some(c) =>
      Builders(
        if c.launchRequest.Some? then c.launchRequest.value else builders.launchRequest,
        if c.intentRequest.Some? then c.intentRequest.value else builders.intentRequest,
        if c.sessionEndedRequest.Some? then c.sessionEndedRequest.value else builders.sessionEndedRequest,
        if c.session.Some? then c.session.value else builders.session)
  }

  // --------------------------------------------------------------- simulator

  /** The mock `Session`: the handler under test, the builders, and the host's session record. */
  datatype Simulator<!S> = Simulator(execute: Handler<S>, builders: Builders<S>, session: Session<S>)

  /** `new Session(lambda, builders)`: the session record comes from the `Session` builder. */
  function NewSimulator<S>(lambda: Handler<S>, now: string, custom: Option<CustomBuilders<S>>): (r: Simulator<S>)
    ensures r.execute == lambda && r.builders == ExtendBuilders(now, custom)
    ensures r.session == r.builders.session()
  {
    var builders := ExtendBuilders(now, custom);
    Simulator(lambda, builders, builders.session())
  }

  /**
   * What the host gets from running a handler: the hosting adapter settles
   * returned values, thrown errors and promises alike into one outcome.
   */
  function Execute<S>(handler: Handler<S>, request: RequestBody<S>): (r: Result<Reply<S>>)
    ensures handler(request) == Now(r) || handler(request) == Later(r)
  {
    match handler(request)
    case Now(outcome) => outcome
    case Later(outcome) => outcome
  }

  /** `LinkAccount`: sets the access token and changes nothing else. */
  function LinkAccount<S>(sim: Simulator<S>, token: string): (r: Simulator<S>)
    ensures r.session.user.accessToken == Some(token)
    ensures r.session.user.userId == sim.session.user.userId
    ensures r.session.(user := sim.session.user) == sim.session
    ensures r.execute == sim.execute && r.builders == sim.builders
  {
    sim.(session := sim.session.(user := sim.session.user.(accessToken := Some(token))))
  }

  /**
   * The session update after a successful turn: the session is no longer new,
   * and its attributes are replaced only by a non-empty attribute map.
   */
  function AfterTurn<S>(session: Session<S>, reply: Reply<S>): (r: Session<S>)
    ensures !r.isNew
    ensures r.(isNew := session.isNew, attributes := session.attributes) == session
    ensures reply.Body? && reply.body.sessionAttributes.Some? && |reply.body.sessionAttributes.value| > 0 ==>
      r.attributes == reply.body.sessionAttributes.value
    ensures !(reply.Body? && reply.body.sessionAttributes.Some? && |reply.body.sessionAttributes.value| > 0) ==>
      r.attributes == session.attributes
  {
    var attributes :=
      if reply.Body? && reply.body.sessionAttributes.Some? && |reply.body.sessionAttributes.value| > 0
      then reply.body.sessionAttributes.value
      else session.attributes;
    session.(isNew := false, attributes := attributes)
  }

  /** `Request`: one turn; a failed turn leaves the simulator as it was. */
  function Request<S>(sim: Simulator<S>, request: RequestBody<S>): (r: (Simulator<S>, Result<Reply<S>>))
    ensures r.1 == sim.execute(request).value
    ensures r.1.Err? ==> r.0 == sim
    ensures r.1.Ok? ==> !r.0.session.isNew
    ensures r.1.Ok? ==> r.0 == sim.(session := AfterTurn(sim.session, r.1.value))
  {
    var outcome := Execute(sim.execute, request);
    match outcome
    case Err(_) => (sim, outcome)
    case Ok(reply) => (sim.(session := AfterTurn(sim.session, reply)), outcome)
  }

  /**
   * `LaunchSkill`: one turn on the request the launch builder makes, sent
   * with the session as it stands.
   */
  function LaunchSkill<S>(sim: Simulator<S>): (r: (Simulator<S>, Result<Reply<S>>))
    ensures r.1 == sim.execute(RequestBody(RequestVersion, sim.session, sim.builders.launchRequest())).value
    ensures r.1.Err? ==> r.0 == sim
    ensures r.1.Ok? ==> r.0.execute == sim.execute && r.0.builders == sim.builders && !r.0.session.isNew
    ensures r.1.Ok? ==> r.0 == sim.(session := AfterTurn(sim.session, r.1.value))
  {
    Request(sim, FakeRequestBody(sim.session, sim.builders.launchRequest()))
  }

  /**
   * `RequestIntent`: one turn on the request the intent builder makes from
   * the name and slots, sent with the session as it stands.
   */
  function RequestIntent<S>(sim: Simulator<S>, name: string, slots: Option<seq<(string, Slot)>>): (r: (Simulator<S>, Result<Reply<S>>))
    ensures r.1 == sim.execute(RequestBody(RequestVersion, sim.session, sim.builders.intentRequest(name, slots))).value
    ensures r.1.Err? ==> r.0 == sim
    ensures r.1.Ok? ==> r.0.execute == sim.execute && r.0.builders == sim.builders && !r.0.session.isNew
    ensures r.1.Ok? ==> r.0 == sim.(session := AfterTurn(sim.session, r.1.value))
  {
    Request(sim, FakeRequestBody(sim.session, sim.builders.intentRequest(name, slots)))
  }

  /**
   * `EndSession`: one turn on the request the session-ended builder makes from
   * the reason, sent with the session as it stands.
   */
  function EndSession<S>(sim: Simulator<S>, reason: Option<SessionEndedReason>): (r: (Simulator<S>, Result<Reply<S>>))
    ensures r.1 == sim.execute(RequestBody(RequestVersion, sim.session, sim.builders.sessionEndedRequest(reason))).value
    ensures r.1.Err? ==> r.0 == sim
    ensures r.1.Ok? ==> r.0.execute == sim.execute && r.0.builders == sim.builders && !r.0.session.isNew
    ensures r.1.Ok? ==> r.0 == sim.(session := AfterTurn(sim.session, r.1.value))
  {
    Request(sim, FakeRequestBody(sim.session, sim.builders.sessionEndedRequest(reason)))
  }

  /**
   * State carried across a turn: when a turn's reply is an expanded description,
   * every later request the simulator builds reads back the new state, or the
   * previous one when the description set none.
   */
  lemma TurnCarriesState<S>(sim: Simulator<S>, request: RequestBody<S>, desc: Response<S>, previous: S,
                            following: Request, initial: S)
    requires sim.execute(request).value.Ok?
    requires sim.execute(request).value.value.Body?
    requires sim.execute(request).value.value.body.sessionAttributes == Some(SessionAttributesFromResponse(desc, Some(previous)))
    ensures FromRequest(FakeRequestBody(Request(sim, request).0.session, following), initial)
            == desc.newState.GetOr(previous)
  {
    var attributes := SessionAttributesFromResponse(desc, Some(previous));
    assert AttributeKey in attributes;
    assert |attributes| > 0;
    StateHandOff(desc, Some(previous), FakeRequestBody(Request(sim, request).0.session, following), initial);
  }

  // ------------------------------------------------------- counting session

  const NextIntentName: string := IntentName(Next)

  /** The route a `Next` turn runs: say the state, and count it up by one. */
  function CountUp(): IntentHandler<int> {
    (state: int, slots: Slots, request: RequestBody<int>, next: Handler<int>) =>
      Now(Ok(Desc(Response(Some(Speech(Some(Decimal(state)), None)), Some(state + 1), None, None, None))))
  }

  /** A counter skill: initial state 0 and one standard route, `Next`. */
  function CounterRoutes(): Routes<int> {
    Routes(0, None, None, map[Next := CountUp()], [])
  }

  /** `n` successive `AMAZON.NextIntent` turns. */
  function NextTurns(sim: Simulator<int>, n: nat): Simulator<int>
    decreases n
  {
    if n == 0 then sim else NextTurns(RequestIntent(sim, NextIntentName, None).0, n - 1)
  }

  /** The simulator plays the counter skill with the default intent builder. */
  ghost predicate PlaysCounter(sim: Simulator<int>, now: string) {
    sim.execute == HandlerRouter(CounterRoutes())
    && sim.builders.intentRequest == DefaultBuilders<int>(now).intentRequest
  }

  /** The counter value the session holds: the stored state, or the initial 0. */
  ghost predicate Holds(session: Session<int>, count: int) {
    StateIn(session.attributes, 0) == count
  }

  /** After a counting turn: still the counter skill, no longer new, storing exactly `count`. */
  ghost predicate Counted(sim: Simulator<int>, now: string, count: int) {
    && PlaysCounter(sim, now)
    && sim.session.attributes == map[AttributeKey := count]
    && !sim.session.isNew
  }

  /** The counter skill answers a `Next` request by storing the state it read plus one. */
  lemma CounterReply(request: RequestBody<int>, count: int)
    requires request.request.IntentRequest? && request.request.intent.name == NextIntentName
    requires FromRequest(request, 0) == count
    ensures var out := HandlerRouter(CounterRoutes())(request);
      out.Now? && out.value.Ok? && out.value.value.Body?
      && out.value.value.body.sessionAttributes == Some(map[AttributeKey := count + 1])
  {
    var slots := SlotsToMap(request.request.intent.slots);
    CounterRouted(request, slots);
    CountUpStores(count, slots, request);
  }

  /** A `Next` request reaches the counting route with the state it carries. */
  lemma CounterRouted(request: RequestBody<int>, slots: Slots)
    requires request.request.IntentRequest? && request.request.intent.name == NextIntentName
    requires slots == SlotsToMap(request.request.intent.slots)
    ensures HandlerRouter(CounterRoutes())(request)
      == MapIntentResult(CountUp()(FromRequest(request, 0), slots, request, Unhandled()), FromRequest(request, 0))
  {
    StandardNameRoundTrip(Next, NextIntentName);
    assert CounterRoutes().standard[Next] == CountUp();
  }

  /** The counting route's answer, normalised, stores the count plus one. */
  lemma CountUpStores(count: int, slots: Slots, request: RequestBody<int>)
    ensures var out := MapIntentResult(CountUp()(count, slots, request, Unhandled()), count);
      out.Now? && out.value.Ok? && out.value.value.Body?
      && out.value.value.body.sessionAttributes == Some(map[AttributeKey := count + 1])
  {
    var desc := Response(Some(Speech(Some(Decimal(count)), None)), Some(count + 1), None, None, None);
    assert CountUp()(count, slots, request, Unhandled()) == Now(Ok(Desc(desc)));
    assert MakeResponse(desc).Ok?;
  }

  /** One `Next` turn writes the held count plus one and the simulator keeps it. */
  lemma CounterTurn(sim: Simulator<int>, now: string, count: int)
    requires PlaysCounter(sim, now)
    requires Holds(sim.session, count)
    ensures var after := RequestIntent(sim, NextIntentName, None).0;
      var reply := RequestIntent(sim, NextIntentName, None).1;
      && reply.Ok? && reply.value.Body?
      && reply.value.body.sessionAttributes == Some(map[AttributeKey := count + 1])
      && Counted(after, now, count + 1)
  {
    var request := FakeRequestBody(sim.session, sim.builders.intentRequest(NextIntentName, None));
    assert request.request == FakeIntentRequest(now, NextIntentName, None);
    assert FromRequest(request, 0) == count;
    CounterReply(request, count);
  }

  /**
   * The multi-turn counting session: from a fresh simulator, the `n`-th
   * `AMAZON.NextIntent` turn stores `n` (1, then 2, ...).
   */
  lemma {:induction false} CountingSession(now: string, n: nat)
    ensures var sim := NextTurns(NewSimulator(HandlerRouter(CounterRoutes()), now, None), n + 1);
      sim.session.attributes == map[AttributeKey := n + 1] && !sim.session.isNew
  {
    var start := NewSimulator(HandlerRouter(CounterRoutes()), now, None);
    CountingFrom(start, now, 0, n + 1);
  }

  /** `k` turns from a session holding `count` leave it storing `count + k`. */
  lemma {:induction false} CountingFrom(sim: Simulator<int>, now: string, count: int, k: nat)
    requires PlaysCounter(sim, now)
    requires Holds(sim.session, count)
    requires k > 0
    ensures Counted(NextTurns(sim, k), now, count + k)
    decreases k
  {
    CounterTurn(sim, now, count);
    var after := RequestIntent(sim, NextIntentName, None).0;
    assert NextTurns(sim, k) == NextTurns(after, k - 1);
    if k > 1 {
      assert Holds(after.session, count + 1);
      CountingFrom(after, now, count + 1, k - 1);
    }
  }
}
