/**
 * The number-guessing example skill: a router over a small game state, closed
 * by a fallback that answers every request the router does not claim. Two
 * fallbacks are modelled: the one the example ships, which stores a `null`
 * state, and one that carries the stored state over unchanged.
 *
 * The random target is the parameter `target` (one draw per turn), and
 * `parseInt(_, 10)` is the parameter `parse`, giving `None` for `NaN`.
 */
module GuessingGame {
  import opened Wrappers
  import opened Deferred
  import opened Shapes
  import opened Normalise
  import opened Routing
  import opened Pipes
  import opened Text

  /** The game state; `Null` is the JavaScript `null` the shipped fallback writes. */
  datatype Game = Null | NotStarted | Guessing(target: int, guesses: int) | Finished

  /** `Math.round(Math.random() * 99 + 1)` lies in 1..100. */
  type Target = t: int | 1 <= t <= 100 witness 1

  const GuessIntent: string := "GuessNumber"
  const GuessSlot: string := "Guess"

  const StartText: string := "Try and guess the number I'm thinking of. It's between 1 and 100."
  const HelpText: string := "Guess a number between 1 and 100, or say \"Stop\"."
  const NotUnderstoodText: string := "Sorry, I couldn't tell what number you said."
  const UnhandledText: string := "Sorry, I didn't get that, try saying a number."

  /** What reading `state.Name` throws when the state is `null`. */
  const NullRead: Error := TypeError("Cannot read properties of null (reading 'Name')")

  function TooLowText(guess: int): string {
    "Is it " + Decimal(guess) + "? Nope, too low! Guess again."
  }

  function TooHighText(guess: int): string {
    "Is it " + Decimal(guess) + "? Nope, too high! Guess again."
  }

  function CorrectText(guess: int, tries: int): string {
    "Is it " + Decimal(guess) + "? Yes! Congratulations, you guessed it in " + Decimal(tries)
      + " tries. Would you like to play again?"
  }

  /** A plain-text description. */
  function Say(text: string, newState: Option<Game>, endSession: Option<bool>): Response<Game> {
    Response(Some(Speech(Some(text), None)), newState, None, None, endSession)
  }

  // -------------------------------------------------------------- game logic

  /** `startNewGame`: a fresh game on the drawn target with no tries yet; the session stays open. */
  function StartNewGame(target: Target): (r: Response<Game>)
    ensures r.newState == Some(Guessing(target, 0)) && r.endSession.None?
    ensures r.say == Some(Speech(Some(StartText), None)) && r.reprompt.None? && r.card.None?
  {
    Say(StartText, Some(Guessing(target, 0)), None)
  }

  /** `help`: the instructions; the state stays and so does the session. */
  function HelpReply(): (r: Response<Game>)
    ensures r.newState.None? && r.endSession.None?
    ensures r.say == Some(Speech(Some(HelpText), None)) && r.reprompt.None? && r.card.None?
  {
    Say(HelpText, None, None)
  }

  /** `stop`: says nothing and ends the session; the state stays. */
  function StopReply(): (r: Response<Game>)
    ensures r.newState.None? && r.endSession == Some(true)
    ensures r.say == Some(Speech(Some(""), None)) && r.reprompt.None? && r.card.None?
  {
    Say("", None, Some(true))
  }

  /** The `Guess` slot through `parseInt`; an empty slot or `NaN` reads as no number. */
  function ReadGuess(slots: Slots, parse: string -> Option<int>): (r: Option<int>)
    ensures SlotValue(slots, GuessSlot).None? ==> r.None?
    ensures SlotValue(slots, GuessSlot).Some? ==> r == parse(SlotValue(slots, GuessSlot).value)
  {
    var raw := SlotValue(slots, GuessSlot);
    if raw.Some? then parse(raw.value) else None
  }

  /**
   * `checkGuess`: a wrong guess counts a try and keeps the target, the right one
   * finishes the game, and no number leaves the state as it was.
   */
  function CheckGuess(state: Game, guess: Option<int>): (r: Response<Game>)
    requires state.Guessing?
    ensures r.say.Some? && r.say.value.text.Some? && r.say.value.ssml.None?
    ensures r.reprompt.None? && r.card.None? && r.endSession.None?
    ensures r.newState.None? <==> guess.None?
    ensures guess.None? ==> r.say.value.text.value == NotUnderstoodText
    ensures r.newState == Some(Finished) <==> guess == Some(state.target)
    ensures guess == Some(state.target) ==>
      r.say.value.text.value == CorrectText(state.target, state.guesses + 1)
    ensures guess.Some? && guess.value != state.target ==>
      r.newState == Some(Guessing(state.target, state.guesses + 1))
    ensures guess.Some? && guess.value < state.target ==> r.say.value.text.value == TooLowText(guess.value)
    ensures guess.Some? && guess.value > state.target ==> r.say.value.text.value == TooHighText(guess.value)
  {
    var next := Guessing(state.target, state.guesses + 1);
    match guess
    case None => Say(NotUnderstoodText, None, None)
    case Some(g) =>
      if g < state.target then Say(TooLowText(g), Some(next), None)
      else if g > state.target then Say(TooHighText(g), Some(next), None)
      else Say(CorrectText(g, state.guesses + 1), Some(Finished), None)
  }

  // ------------------------------------------------------------------ routes

  function LaunchRoute(target: Target): IntentHandler<Game> {
    (state: Game, slots: Slots, event: RequestBody<Game>, next: Handler<Game>) => Answer(StartNewGame(target))
  }

  /** Yes: throws on `null`, starts a new game once one is over, and otherwise answers help. */
  function YesRoute(target: Target): (r: IntentHandler<Game>)
    ensures forall state: Game, slots: Slots, event: RequestBody<Game>, next: Handler<Game> ::
      state.Null? ==> r(state, slots, event, next) == Now(Err(NullRead))
    ensures forall state: Game, slots: Slots, event: RequestBody<Game>, next: Handler<Game> ::
      state.Finished? ==> r(state, slots, event, next) == Answer(StartNewGame(target))
    ensures forall state: Game, slots: Slots, event: RequestBody<Game>, next: Handler<Game> ::
      state.NotStarted? || state.Guessing? ==> r(state, slots, event, next) == Answer(HelpReply())
  {
    (state: Game, slots: Slots, event: RequestBody<Game>, next: Handler<Game>) =>
      if state.Null? then Now(Err(NullRead))
      else if state.Finished? then Answer(StartNewGame(target))
      else Answer(HelpReply())
  }

  /** No: throws on `null`, stops once a game is over, and otherwise answers help. */
  function NoRoute(): (r: IntentHandler<Game>)
    ensures forall state: Game, slots: Slots, event: RequestBody<Game>, next: Handler<Game> ::
      state.Null? ==> r(state, slots, event, next) == Now(Err(NullRead))
    ensures forall state: Game, slots: Slots, event: RequestBody<Game>, next: Handler<Game> ::
      state.Finished? ==> r(state, slots, event, next) == Answer(StopReply())
    ensures forall state: Game, slots: Slots, event: RequestBody<Game>, next: Handler<Game> ::
      state.NotStarted? || state.Guessing? ==> r(state, slots, event, next) == Answer(HelpReply())
  {
    (state: Game, slots: Slots, event: RequestBody<Game>, next: Handler<Game>) =>
      if state.Null? then Now(Err(NullRead))
      else if state.Finished? then Answer(StopReply())
      else Answer(HelpReply())
  }

  /** Help: the instructions, from every state, `null` included. */
  function HelpRoute(): (r: IntentHandler<Game>)
    ensures forall state: Game, slots: Slots, event: RequestBody<Game>, next: Handler<Game> ::
      r(state, slots, event, next) == Answer(HelpReply())
  {
    (state: Game, slots: Slots, event: RequestBody<Game>, next: Handler<Game>) => Answer(HelpReply())
  }

  /** Stop: ends the session from every state, `null` included. */
  function StopRoute(): (r: IntentHandler<Game>)
    ensures forall state: Game, slots: Slots, event: RequestBody<Game>, next: Handler<Game> ::
      r(state, slots, event, next) == Answer(StopReply())
  {
    (state: Game, slots: Slots, event: RequestBody<Game>, next: Handler<Game>) => Answer(StopReply())
  }

  /**
   * The guess route: throws on `null`, checks the slot's number against the
   * running game, and outside a game against a freshly started one.
   */
  function GuessRoute(target: Target, parse: string -> Option<int>): (r: IntentHandler<Game>)
    ensures forall state: Game, slots: Slots, event: RequestBody<Game>, next: Handler<Game> ::
      state.Null? ==> r(state, slots, event, next) == Now(Err(NullRead))
    ensures forall state: Game, slots: Slots, event: RequestBody<Game>, next: Handler<Game> ::
      state.Guessing? ==> r(state, slots, event, next) == Answer(CheckGuess(state, ReadGuess(slots, parse)))
    ensures forall state: Game, slots: Slots, event: RequestBody<Game>, next: Handler<Game> ::
      state.NotStarted? || state.Finished? ==>
        r(state, slots, event, next) == Answer(CheckGuess(Guessing(target, 0), ReadGuess(slots, parse)))
  {
    (state: Game, slots: Slots, event: RequestBody<Game>, next: Handler<Game>) =>
      if state.Null? then Now(Err(NullRead))
      else if state.Guessing? then Answer(CheckGuess(state, ReadGuess(slots, parse)))
      else Answer(CheckGuess(Guessing(target, 0), ReadGuess(slots, parse)))
  }

  /** The route table: no state stored means `NotStarted`; four standard routes and `GuessNumber`. */
  function GameRoutes(target: Target, parse: string -> Option<int>): (r: Routes<Game>)
    ensures r.initialState == NotStarted && r.launch.Some? && r.sessionEnded.None?
    ensures forall k: StandardIntent :: k in r.standard <==> k == Yes || k == No || k == Help || k == Stop
    ensures |r.custom| == 1 && r.custom[0].0 == GuessIntent
  {
    Routes(
      NotStarted,
      Some(LaunchRoute(target)),
      None,
      map[Yes := YesRoute(target), No := NoRoute(), Help := HelpRoute(), Stop := StopRoute()],
      [(GuessIntent, GuessRoute(target, parse))])
  }

  // ---------------------------------------------------------------- fallback

  /** The fallback's answer at once: its text, the session open, and the given attributes. */
  function UnhandledAnswer(attributes: map<string, Game>): Eval<Reply<Game>> {
    Now(Ok(Body(ResponseBody(ResponseVersion, Some(attributes), WireResponse(Some(PlainText(UnhandledText)), None, None, false)))))
  }

  /** The shipped `unhandled`: a reply with `null` as the previous state, so it stores `null`. */
  function FallbackAsWritten(): (r: Pipe<Game>)
    ensures forall event: RequestBody<Game>, next: Handler<Game> ::
      r(event, next) == UnhandledAnswer(map[AttributeKey := Null])
  {
    assert MakeResponse(Say(UnhandledText, None, None)).Ok?;
    assert Respond(Say(UnhandledText, None, None), Some(Null)) == UnhandledAnswer(map[AttributeKey := Null]);
    (event: RequestBody<Game>, next: Handler<Game>) => Respond(Say(UnhandledText, None, None), Some(Null))
  }

  /** The state stored on a request, `undefined` when there is none. */
  function StoredOn(event: RequestBody<Game>): (r: Option<Game>)
    ensures r.Some? <==> AttributeKey in event.session.attributes
    ensures r.Some? ==> r.value == FromRequest(event, NotStarted)
  {
    var attributes := event.session.attributes;
    if AttributeKey in attributes then Some(attributes[AttributeKey]) else None
  }

  /** The fallback with the stored state handed on as the previous state, so the stored state stays. */
  function FallbackCorrected(): (r: Pipe<Game>)
    ensures forall event: RequestBody<Game>, next: Handler<Game> ::
      r(event, next) == UnhandledAnswer(
        if AttributeKey in event.session.attributes then map[AttributeKey := event.session.attributes[AttributeKey]]
        else map[])
  {
    assert MakeResponse(Say(UnhandledText, None, None)).Ok?;
    (event: RequestBody<Game>, next: Handler<Game>) => Respond(Say(UnhandledText, None, None), StoredOn(event))
  }

  /** The exported chain: tracer, router, fallback. */
  function GuessingSteps(target: Target, parse: string -> Option<int>, fallback: Pipe<Game>): seq<Pipe<Game>> {
    [Tracer(), Router(GameRoutes(target, parse)), fallback]
  }

  /** The exported handler: past the tracer, the router with the fallback as its `next`. */
  function GuessingPipe(target: Target, parse: string -> Option<int>, fallback: Pipe<Game>): (r: Handler<Game>)
    ensures forall event: RequestBody<Game> {:trigger Route(GameRoutes(target, parse), event, ProcessNext([fallback], Unhandled()))} ::
      r(event) == Route(GameRoutes(target, parse), event, ProcessNext([fallback], Unhandled()))
  {
    ChainIsRoute(target, parse, fallback);
    HandlerPipe(GuessingSteps(target, parse, fallback))
  }

  // ------------------------------------------------------- reference machine

  /** What a request asks of the game. */
  datatype Move = Open | Agree | Decline | AskHelp | AskStop | Guess(guess: Option<int>) | Unrecognised

  /** Classifies a request by type, platform intent name and `Guess` slot. */
  function MoveOf(request: Request, parse: string -> Option<int>): Move {
    match request
    case LaunchRequest(_, _) => Open
    case IntentRequest(_, _, intent) => IntentMove(StandardFromName(intent.name), intent, parse)
    case SessionEndedRequest(_, _, _) => Unrecognised
    case OtherRequest(_, _, _) => Unrecognised
  }

  /** Classifies an intent, given the standard key its name denotes. */
  function IntentMove(standard: Option<StandardIntent>, intent: Intent, parse: string -> Option<int>): Move {
    match standard
    case Some(Yes) => Agree
    case Some(No) => Decline
    case Some(Help) => AskHelp
    case Some(Stop) => AskStop
    case _ =>
      if intent.name == GuessIntent then Guess(ReadGuess(SlotsToMap(intent.slots), parse)) else Unrecognised
  }

  /**
   * The game as a state machine: the state the next turn reads after `move`.
   * It never steps into `null`, and only a guess of a number finishes a game.
   */
  function Step(target: Target, state: Game, move: Move): (r: Game)
    ensures state != Null ==> r != Null
    ensures r.Finished? ==> state.Finished? || (move.Guess? && move.guess.Some?)
  {
    match move
    case Open => Guessing(target, 0)
    case Agree => if state.Finished? then Guessing(target, 0) else state
    case Guess(guess) =>
      if guess.None? then state
      else
        var t := if state.Guessing? then state.target else target;
        var n := if state.Guessing? then state.guesses else 0;
        if guess.value == t then Finished else Guessing(t, n + 1)
    case _ => state
  }

  /** The turns that close the session: Stop, and No once a game is over. */
  predicate Ends(state: Game, move: Move) {
    move.AskStop? || (move.Decline? && state.Finished?)
  }

  /** Plays the moves in order against one target. */
  function Play(target: Target, state: Game, moves: seq<Move>): Game
    decreases |moves|
  {
    if |moves| == 0 then state else Play(target, Step(target, state, moves[0]), moves[1..])
  }

  /** A turn answered with a wire body whose attributes hold `after` and whose end flag is `ends`. */
  ghost predicate Settles(out: Eval<Reply<Game>>, after: Game, ends: bool) {
    && out.Now? && out.value.Ok? && out.value.value.Body?
    && out.value.value.body.sessionAttributes.Some?
    && StateIn(out.value.value.body.sessionAttributes.value, NotStarted) == after
    && out.value.value.body.response.shouldEndSession == ends
  }

  // ------------------------------------------------------------------ lemmas

  /** Past the tracer, the chain is the router with the fallback as its `next`. */
  lemma PipeIsRoute(target: Target, parse: string -> Option<int>, fallback: Pipe<Game>, event: RequestBody<Game>)
    ensures HandlerPipe(GuessingSteps(target, parse, fallback))(event)
      == Route(GameRoutes(target, parse), event, ProcessNext([fallback], Unhandled()))
    ensures ProcessNext([fallback], Unhandled())(event) == fallback(event, Unhandled())
  {
    var steps := GuessingSteps(target, parse, fallback);
    TracerAndDoNothingForward(event);
    JoinRunsInOrder(steps, 1, event, Unhandled());
    assert steps[2..] == [fallback];
    assert [fallback][1..] == [];
    assert ProcessNext([fallback], Unhandled())(event) == fallback(event, ProcessNext([fallback][1..], Unhandled()));
  }

  /** `PipeIsRoute` for every request at once. */
  lemma ChainIsRoute(target: Target, parse: string -> Option<int>, fallback: Pipe<Game>)
    ensures forall event: RequestBody<Game> ::
      HandlerPipe(GuessingSteps(target, parse, fallback))(event)
        == Route(GameRoutes(target, parse), event, ProcessNext([fallback], Unhandled()))
  {
    forall event: RequestBody<Game> {
      PipeIsRoute(target, parse, fallback, event);
    }
  }

  /** A text description settles with its new state, else the pre-turn state. */
  lemma DescSettles(desc: Response<Game>, state: Game)
    requires desc.say.Some? && desc.say.value.text.Some? && desc.reprompt.None?
    ensures Settles(MapIntentResult(Answer(desc), state), desc.newState.GetOr(state), desc.endSession == Some(true))
  {
    var out := MapIntentResult(Answer(desc), state);
    assert out.value == BuildRequestIfNeeded(Desc(desc), state);
    assert MakeResponse(desc).Ok?;
  }

  /** A route registered under `k` answers the request named after `k`. */
  lemma StandardTurn(target: Target, parse: string -> Option<int>, event: RequestBody<Game>, next: Handler<Game>, k: StandardIntent)
    requires event.request.IntentRequest? && StandardFromName(event.request.intent.name) == Some(k)
    requires k in GameRoutes(target, parse).standard
    ensures var state := FromRequest(event, NotStarted);
      Route(GameRoutes(target, parse), event, next)
        == MapIntentResult(GameRoutes(target, parse).standard[k](state, SlotsToMap(event.request.intent.slots), event, next), state)
  {
  }

  /** `GuessNumber` is not the platform name of any standard intent. */
  lemma GuessIsCustom()
    ensures StandardFromName(GuessIntent).None?
  {
    assert GuessIntent[..|IntentPrefix|][0] != IntentPrefix[0];
  }

  /** A `GuessNumber` request reaches the custom route: the name is no platform intent. */
  lemma GuessTurn(target: Target, parse: string -> Option<int>, event: RequestBody<Game>, next: Handler<Game>)
    requires event.request.IntentRequest? && event.request.intent.name == GuessIntent
    ensures var state := FromRequest(event, NotStarted);
      Route(GameRoutes(target, parse), event, next)
        == MapIntentResult(GuessRoute(target, parse)(state, SlotsToMap(event.request.intent.slots), event, next), state)
  {
    GuessIsCustom();
    assert IsLast(GameRoutes(target, parse).custom, 0);
  }

  /** The requests no route claims are exactly the unrecognised moves. */
  lemma UnrecognisedUnclaimed(target: Target, parse: string -> Option<int>, request: Request)
    ensures Unclaimed(GameRoutes(target, parse), request) <==> MoveOf(request, parse).Unrecognised?
  {
    var routes := GameRoutes(target, parse);
    if request.IntentRequest? {
      var name := request.intent.name;
      if name == GuessIntent {
        GuessIsCustom();
        assert routes.custom[0].0 == name;
      } else {
        assert !CustomClaims(routes, name);
      }
    }
  }

  /** The route a move is answered by. */
  function RouteFor(target: Target, parse: string -> Option<int>, move: Move): IntentHandler<Game> {
    match move
    case Open => LaunchRoute(target)
    case Agree => YesRoute(target)
    case Decline => NoRoute()
    case AskHelp => HelpRoute()
    case AskStop => StopRoute()
    case _ => GuessRoute(target, parse)
  }

  /** The description the route for a move answers with, from a state other than `null`. */
  function ReplyFor(target: Target, state: Game, move: Move): Response<Game>
    requires state != Null && !move.Unrecognised?
  {
    match move
    case Open => StartNewGame(target)
    case Agree => if state.Finished? then StartNewGame(target) else HelpReply()
    case Decline => if state.Finished? then StopReply() else HelpReply()
    case AskHelp => HelpReply()
    case AskStop => StopReply()
    case Guess(guess) => CheckGuess(if state.Guessing? then state else Guessing(target, 0), guess)
  }

  /**
   * Every route, from a state other than `null`, answers a text description that
   * settles the turn as the machine says.
   */
  lemma HandlerSettles(target: Target, parse: string -> Option<int>, state: Game, slots: Slots,
                       event: RequestBody<Game>, next: Handler<Game>, move: Move)
    requires state != Null && !move.Unrecognised?
    requires move.Guess? ==> move.guess == ReadGuess(slots, parse)
    ensures Settles(MapIntentResult(RouteFor(target, parse, move)(state, slots, event, next), state),
                    Step(target, state, move), Ends(state, move))
  {
    var desc := ReplyFor(target, state, move);
    assert RouteFor(target, parse, move)(state, slots, event, next) == Answer(desc);
    DescSettles(desc, state);
  }

  /** The route of a standard intent is the one its move names. */
  lemma StandardDispatch(target: Target, parse: string -> Option<int>, event: RequestBody<Game>, next: Handler<Game>, k: StandardIntent)
    requires event.request.IntentRequest? && StandardFromName(event.request.intent.name) == Some(k)
    requires k in GameRoutes(target, parse).standard
    ensures var state := FromRequest(event, NotStarted);
      var slots := SlotsToMap(event.request.intent.slots);
      Route(GameRoutes(target, parse), event, next)
        == MapIntentResult(RouteFor(target, parse, MoveOf(event.request, parse))(state, slots, event, next), state)
  {
    StandardTurn(target, parse, event, next, k);
    StandardRouteFor(target, parse, event.request.intent, k);
  }

  /** The standard table holds, under each key, the route of the move that key names. */
  lemma StandardRouteFor(target: Target, parse: string -> Option<int>, intent: Intent, k: StandardIntent)
    requires k in GameRoutes(target, parse).standard
    ensures GameRoutes(target, parse).standard[k] == RouteFor(target, parse, IntentMove(Some(k), intent, parse))
  {
    var table := GameRoutes(target, parse).standard;
    if k == Yes {
      assert IntentMove(Some(k), intent, parse) == Agree;
    } else if k == No {
      assert IntentMove(Some(k), intent, parse) == Decline;
    } else if k == Help {
      assert IntentMove(Some(k), intent, parse) == AskHelp;
    } else {
      assert k == Stop;
      assert IntentMove(Some(k), intent, parse) == AskStop;
    }
  }

  /** The route of a guess is the guess route. */
  lemma GuessDispatch(target: Target, parse: string -> Option<int>, event: RequestBody<Game>, next: Handler<Game>)
    requires event.request.IntentRequest? && event.request.intent.name == GuessIntent
    ensures var state := FromRequest(event, NotStarted);
      var slots := SlotsToMap(event.request.intent.slots);
      && MoveOf(event.request, parse) == Guess(ReadGuess(slots, parse))
      && Route(GameRoutes(target, parse), event, next)
        == MapIntentResult(RouteFor(target, parse, MoveOf(event.request, parse))(state, slots, event, next), state)
  {
    GuessMove(event.request, parse);
    assert RouteFor(target, parse, MoveOf(event.request, parse)) == GuessRoute(target, parse);
    GuessTurn(target, parse, event, next);
  }

  /** A `GuessNumber` request is a guess of the number its slots give. */
  lemma GuessMove(request: Request, parse: string -> Option<int>)
    requires request.IntentRequest? && request.intent.name == GuessIntent
    ensures MoveOf(request, parse) == Guess(ReadGuess(SlotsToMap(request.intent.slots), parse))
  {
    GuessIsCustom();
    assert MoveOf(request, parse) == IntentMove(None, request.intent, parse);
  }

  /** Only a `GuessNumber` request is a guess, and it carries the number its slots give. */
  lemma GuessMoveOnlyFromGuessIntent(request: Request, parse: string -> Option<int>)
    ensures MoveOf(request, parse).Guess? ==>
      request.IntentRequest? && request.intent.name == GuessIntent
      && MoveOf(request, parse).guess == ReadGuess(SlotsToMap(request.intent.slots), parse)
  {
    if request.IntentRequest? {
      var standard := StandardFromName(request.intent.name);
      assert MoveOf(request, parse) == IntentMove(standard, request.intent, parse);
    }
  }

  /**
   * A request a route claims reaches the route its move names, with the stored
   * state and, for an intent, the request's slots.
   */
  lemma ClaimedDispatch(target: Target, parse: string -> Option<int>, event: RequestBody<Game>, next: Handler<Game>)
    requires !MoveOf(event.request, parse).Unrecognised?
    ensures var state := FromRequest(event, NotStarted);
      var move := MoveOf(event.request, parse);
      var slots := if event.request.IntentRequest? then SlotsToMap(event.request.intent.slots) else map[];
      && (move.Guess? ==> move.guess == ReadGuess(slots, parse))
      && Route(GameRoutes(target, parse), event, next)
        == MapIntentResult(RouteFor(target, parse, move)(state, slots, event, next), state)
  {
    GuessMoveOnlyFromGuessIntent(event.request, parse);
    if event.request.IntentRequest? {
      var standard := StandardFromName(event.request.intent.name);
      if standard.Some? && standard.value in GameRoutes(target, parse).standard {
        StandardDispatch(target, parse, event, next, standard.value);
      } else {
        GuessDispatch(target, parse, event, next);
      }
    }
  }

  /** A move a route answers settles, from any state but `null`, as the machine says. */
  lemma ClaimedTurn(target: Target, parse: string -> Option<int>, event: RequestBody<Game>, next: Handler<Game>)
    requires FromRequest(event, NotStarted) != Null
    requires !MoveOf(event.request, parse).Unrecognised?
    ensures var state := FromRequest(event, NotStarted);
      var move := MoveOf(event.request, parse);
      Settles(Route(GameRoutes(target, parse), event, next), Step(target, state, move), Ends(state, move))
  {
    var slots := if event.request.IntentRequest? then SlotsToMap(event.request.intent.slots) else map[];
    ClaimedDispatch(target, parse, event, next);
    HandlerSettles(target, parse, FromRequest(event, NotStarted), slots, event, next, MoveOf(event.request, parse));
  }

  /**
   * With the corrected fallback, every turn from a state other than `null`
   * answers, stores the state the machine steps to, and ends the session exactly
   * on the machine's closing moves.
   */
  lemma CorrectedTurn(target: Target, parse: string -> Option<int>, event: RequestBody<Game>)
    requires FromRequest(event, NotStarted) != Null
    ensures var state := FromRequest(event, NotStarted);
      var move := MoveOf(event.request, parse);
      Settles(GuessingPipe(target, parse, FallbackCorrected())(event), Step(target, state, move), Ends(state, move))
  {
    var next := ProcessNext([FallbackCorrected()], Unhandled());
    PipeIsRoute(target, parse, FallbackCorrected(), event);
    UnrecognisedUnclaimed(target, parse, event.request);
    if MoveOf(event.request, parse).Unrecognised? {
      var reply := Say(UnhandledText, None, None);
      assert MakeResponse(reply).Ok?;
      assert BuildResponse(reply, StoredOn(event)).Ok?;
    } else {
      ClaimedTurn(target, parse, event, next);
    }
  }

  /** Wrong guesses in a running game count tries and keep the target. */
  lemma {:induction false} WrongGuessesCount(target: Target, t: int, n: int, moves: seq<Move>)
    requires forall i :: 0 <= i < |moves| ==> moves[i].Guess? && moves[i].guess.Some? && moves[i].guess.value != t
    ensures Play(target, Guessing(t, n), moves) == Guessing(t, n + |moves|)
    decreases |moves|
  {
    if |moves| > 0 {
      assert Step(target, Guessing(t, n), moves[0]) == Guessing(t, n + 1);
      WrongGuessesCount(target, t, n + 1, moves[1..]);
    }
  }

  /** Playing one more move is stepping from where the earlier moves led. */
  lemma {:induction false} PlayAppend(target: Target, state: Game, moves: seq<Move>, last: Move)
    ensures Play(target, state, moves + [last]) == Step(target, Play(target, state, moves), last)
    decreases |moves|
  {
    if |moves| > 0 {
      assert (moves + [last])[1..] == moves[1..] + [last];
      PlayAppend(target, Step(target, state, moves[0]), moves[1..], last);
    }
  }

  /**
   * After a run of wrong guesses in a game begun with `n` tries, the right
   * guess finishes the game and is congratulated on `n + |wrong| + 1` tries.
   */
  lemma RightGuessAfterWrong(target: Target, t: int, n: int, wrong: seq<Move>)
    requires forall i :: 0 <= i < |wrong| ==> wrong[i].Guess? && wrong[i].guess.Some? && wrong[i].guess.value != t
    ensures Play(target, Guessing(t, n), wrong + [Guess(Some(t))]) == Finished
    ensures Play(target, Guessing(t, n), wrong).Guessing?
      && CheckGuess(Play(target, Guessing(t, n), wrong), Some(t)).say.value.text.value == CorrectText(t, n + |wrong| + 1)
  {
    WrongGuessesCount(target, t, n, wrong);
    PlayAppend(target, Guessing(t, n), wrong, Guess(Some(t)));
  }

  // ------------------------------------------------------ the null fallback

  /** The shipped fallback stores `null` on every request the router does not claim. */
  lemma FallbackStoresNull(target: Target, parse: string -> Option<int>, event: RequestBody<Game>)
    requires MoveOf(event.request, parse).Unrecognised?
    ensures var out := GuessingPipe(target, parse, FallbackAsWritten())(event);
      out.Now? && out.value.Ok? && out.value.value.Body?
      && out.value.value.body.sessionAttributes == Some(map[AttributeKey := Null])
  {
    PipeIsRoute(target, parse, FallbackAsWritten(), event);
    UnrecognisedUnclaimed(target, parse, event.request);
    assert MakeResponse(Say(UnhandledText, None, None)).Ok?;
  }

  /** The corrected fallback stores again the state the request carried, and nothing when it carried none. */
  lemma FallbackKeepsState(target: Target, parse: string -> Option<int>, event: RequestBody<Game>)
    requires MoveOf(event.request, parse).Unrecognised?
    ensures var attributes := event.session.attributes;
      GuessingPipe(target, parse, FallbackCorrected())(event)
        == UnhandledAnswer(if AttributeKey in attributes then map[AttributeKey := attributes[AttributeKey]] else map[])
  {
    PipeIsRoute(target, parse, FallbackCorrected(), event);
    UnrecognisedUnclaimed(target, parse, event.request);
  }

  /** From a stored `null`, Yes, No and every guess throw instead of answering. */
  lemma NullStateThrows(target: Target, parse: string -> Option<int>, fallback: Pipe<Game>, event: RequestBody<Game>)
    requires FromRequest(event, NotStarted) == Null
    requires MoveOf(event.request, parse).Agree? || MoveOf(event.request, parse).Decline?
          || MoveOf(event.request, parse).Guess?
    ensures GuessingPipe(target, parse, fallback)(event) == Now(Err(NullRead))
  {
    var move := MoveOf(event.request, parse);
    var slots := if event.request.IntentRequest? then SlotsToMap(event.request.intent.slots) else map[];
    PipeIsRoute(target, parse, fallback, event);
    ClaimedDispatch(target, parse, event, ProcessNext([fallback], Unhandled()));
    NullRouteThrows(target, parse, slots, event, ProcessNext([fallback], Unhandled()), move);
  }

  /** The routes that read the state throw on `null`, and the router passes the throw on. */
  lemma NullRouteThrows(target: Target, parse: string -> Option<int>, slots: Slots,
                        event: RequestBody<Game>, next: Handler<Game>, move: Move)
    requires move.Agree? || move.Decline? || move.Guess?
    ensures MapIntentResult(RouteFor(target, parse, move)(Null, slots, event, next), Null) == Now(Err(NullRead))
  {
    assert RouteFor(target, parse, move)(Null, slots, event, next) == Now(Err(NullRead));
  }

  /** With the shipped fallback, a guess after an unrecognised request throws. */
  lemma ShippedLosesGame(target: Target, parse: string -> Option<int>, first: RequestBody<Game>, second: RequestBody<Game>)
    requires MoveOf(first.request, parse).Unrecognised? && MoveOf(second.request, parse).Guess?
    ensures var out := GuessingPipe(target, parse, FallbackAsWritten())(first);
      out.Now? && out.value.Ok? && out.value.value.Body? && out.value.value.body.sessionAttributes.Some?
    ensures var out := GuessingPipe(target, parse, FallbackAsWritten())(first);
      second.session.attributes == out.value.value.body.sessionAttributes.value ==>
        GuessingPipe(target, parse, FallbackAsWritten())(second) == Now(Err(NullRead))
  {
    FallbackStoresNull(target, parse, first);
    var out := GuessingPipe(target, parse, FallbackAsWritten())(first);
    if second.session.attributes == out.value.value.body.sessionAttributes.value {
      NullStateThrows(target, parse, FallbackAsWritten(), second);
    }
  }

  /** With the corrected fallback, the running game survives and the guess is checked against it. */
  lemma CorrectedKeepsGame(target: Target, parse: string -> Option<int>, first: RequestBody<Game>, second: RequestBody<Game>, t: int, n: int)
    requires FromRequest(first, NotStarted) == Guessing(t, n)
    requires MoveOf(first.request, parse).Unrecognised? && MoveOf(second.request, parse).Guess?
    ensures var out := GuessingPipe(target, parse, FallbackCorrected())(first);
      out.Now? && out.value.Ok? && out.value.value.Body? && out.value.value.body.sessionAttributes.Some?
    ensures var out := GuessingPipe(target, parse, FallbackCorrected())(first);
      second.session.attributes == out.value.value.body.sessionAttributes.value ==>
        Settles(GuessingPipe(target, parse, FallbackCorrected())(second),
                Step(target, Guessing(t, n), MoveOf(second.request, parse)), false)
  {
    FallbackKeepsState(target, parse, first);
    assert AttributeKey in first.session.attributes;
    var kept := map[AttributeKey := Guessing(t, n)];
    assert GuessingPipe(target, parse, FallbackCorrected())(first) == UnhandledAnswer(kept);
    if second.session.attributes == kept {
      assert FromRequest(second, NotStarted) == Guessing(t, n);
      CorrectedTurn(target, parse, second);
    }
  }

  /**
   * The shipped skill loses a running game: after an unrecognised request, a
   * guess on the same session throws. The corrected fallback keeps the game, and
   * the guess is checked against it.
   */
  lemma UnrecognisedThenGuess(target: Target, parse: string -> Option<int>, first: RequestBody<Game>, second: RequestBody<Game>, t: int, n: int)
    requires FromRequest(first, NotStarted) == Guessing(t, n)
    requires MoveOf(first.request, parse).Unrecognised? && MoveOf(second.request, parse).Guess?
    ensures var out := GuessingPipe(target, parse, FallbackAsWritten())(first);
      out.Now? && out.value.Ok? && out.value.value.Body? && out.value.value.body.sessionAttributes.Some?
    ensures var out := GuessingPipe(target, parse, FallbackCorrected())(first);
      out.Now? && out.value.Ok? && out.value.value.Body? && out.value.value.body.sessionAttributes.Some?
    ensures var out := GuessingPipe(target, parse, FallbackAsWritten())(first);
      second.session.attributes == out.value.value.body.sessionAttributes.value ==>
        GuessingPipe(target, parse, FallbackAsWritten())(second) == Now(Err(NullRead))
    ensures var out := GuessingPipe(target, parse, FallbackCorrected())(first);
      second.session.attributes == out.value.value.body.sessionAttributes.value ==>
        Settles(GuessingPipe(target, parse, FallbackCorrected())(second),
                Step(target, Guessing(t, n), MoveOf(second.request, parse)), false)
  {
    ShippedLosesGame(target, parse, first, second);
    CorrectedKeepsGame(target, parse, first, second, t, n);
  }
}
