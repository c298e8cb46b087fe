# alexa-ts dispatch engine, modelled in Dafny

This project models the core of alexa-ts, a small TypeScript library for writing
Alexa skills. A skill is a route table: an initial state, a Launch handler, a
SessionEnded callback, handlers for the platform's standard intents
(`AMAZON.<K>Intent`) and handlers for custom intents. The library turns the
table into a *pipe*, an interceptor that gets the request and the rest of the
chain as `next`. Pipes are joined in list order and closed into a handler by a
terminal that throws `Event unhandled`. A handler may answer with a compact
`Response<State>` description. The router expands it into the wire response
body and stores the skill's state under the session attribute `_alexaTsState`,
so the next turn reads it back.

The model covers five parts:

- `PromiseOrValue.map`, as `Deferred.Map` over `PV<T> = Now(T) | Later(T)`. A
  JavaScript expression's outcome is `Eval<T> = PV<Result<T>>`. `Now(Err e)` is a
  synchronous throw and `Later(Err e)` is a rejected promise.
- The response normaliser (`makeSpeech`, `makeCard`, `makeResponse`,
  `sessionAttributesFromResponse`, `response`) and `State.fromRequest`, in module
  `Normalise`.
- The router (`handlerObjToMap`, `slotsToMap`, `buildRequestIfNeeded`,
  `mapIntentResult`, `router`), in module `Routing`. It includes the
  last-write-wins behaviour of `new Map(pairs)`.
- Pipe composition (`Pipe.join`, `toHandler`, `tracer`, `doNothing`,
  `Handler.pipe`, `Handler.router`), in module `Pipes`. The tracer's logger is an
  appended trace.
- The test helpers of `src/testing.ts` (fakes, builders and the session
  simulator), in module `Testing`. The module also holds the counting skill of
  the library's own test, played for any number of turns.

The two example skills are modelled as well. `GuessingGame` holds the number
game, an independent state machine (`Step`, `Ends`) and the proof that the skill
follows it. `KitchenSink` holds the account-linking gate and a written-out
reference answer `Expected`, which the whole pipe is proved equal to on every
request.

Handlers and pipes are total Dafny function values. Dafny has no function
extensionality, so statements about pipes are made request by request
(`Pipes.ForwardsOn`).

The model follows the code in three places a reader might not expect:

- A `Speech` with neither `Text` nor `SSML` is an error (`src/index.ts:117`), not
  "no speech".
- SSML wins whenever it is given, even when it is empty.
- A handler that returns `undefined` makes `'Say' in undefined` throw a
  `TypeError` inside the router (`src/index.ts:212`). Only the SessionEnded
  callback may return nothing, because its result is not normalised.

## Model

| member | source | states |
|---|---|---|
| `Deferred.Map` | src/index.ts:5-13 | a plain value is passed to `f` and its result returned as is; a promise stays a promise and settles to what `f` settles to |
| `Deferred.Then` | src/index.ts:5-13 | mapping an outcome that may have thrown: an error passes on unchanged, thrown stays thrown and rejected stays rejected; otherwise the value goes to `f`; the result is immediate exactly when both stages are |
| `Deferred.MapIdentity` | src/index.ts:5-13 | mapping with the identity continuation keeps a value plain and a promise a promise |
| `Deferred.MapCompose` | src/index.ts:5-13 | two maps in a row equal one map with the composed continuation |
| `Normalise.MakeSpeech` | src/index.ts:105-119 | SSML whenever it is given, even with text and even empty; else plain text; the error 'Speech contains neither text nor SSML.' exactly when neither is given |
| `Normalise.MakeSpeechOnto` | src/index.ts:105-119 | every wire speech is produced from some description, so no output shape is unreachable |
| `Normalise.MakeSpeechKeepsContent` | src/index.ts:105-119 | the wire speech carries the given markup, or the given text when no markup is given |
| `Normalise.MakeCard` | src/index.ts:121-143 | LinkAccount maps to the link card and nothing else does; a card with an image maps to Standard with title, text and both URLs in place; without an image it maps to Simple |
| `Normalise.MakeCardBijective` | src/index.ts:121-143 | card descriptions and wire cards correspond one to one, with no field lost or invented |
| `Normalise.MakeResponse` | src/index.ts:145-165 | fails exactly when the speech or the reprompt fails; `shouldEndSession` is `EndSession` or false; speech, reprompt and card are present exactly when given |
| `Normalise.MakeResponseOnto` | src/index.ts:145-165 | every wire response is the normal form of some description |
| `Normalise.FromRequest` | src/index.ts:167-177 | the stored state when the reserved key is present, else the initial state |
| `Normalise.SessionAttributesFromResponse` | src/index.ts:179-187 | the only key ever written is `_alexaTsState`; it holds the new state if given, else the previous state if defined; otherwise the map is empty |
| `Normalise.BuildResponse` | src/index.ts:189-195 | version 1.0, the normalised response and the state attributes, or the normaliser's error |
| `Normalise.Respond` | src/index.ts:189-195 | called inside a handler, gives the body at once, or throws at once with the normaliser's error |
| `Normalise.StateHandOff` | src/index.ts:170-187 | a request carrying the attributes a response wrote reads back the new state, else the previous state, else the initial state |
| `Routing.KeyFromString` | src/index.ts:197-201 | a standard key is recognised only from its own property name |
| `Routing.StandardNameRoundTrip` | src/index.ts:197-201 | `AMAZON.<K>Intent` decodes back to `K`, and a name decodes to `K` only when it is `AMAZON.<K>Intent` |
| `Routing.IntentNameInjective` | src/index.ts:197-201 | distinct standard keys have distinct intent names |
| `Routing.HandlerObjToMap` | src/index.ts:197-201 | a name is a key of the result exactly when it is `AMAZON.<K>Intent` for a registered `K`, and it maps to that key's handler |
| `Routing.NewMap` | src/index.ts:222-224 | the map of the custom pairs: every key present, no other key, and for a repeated key the last pair wins |
| `Routing.SlotsToMap` | src/index.ts:203-209 | slots keyed by each slot's own name, every name present and no other, each holding the value of the last slot with that name; a non-object gives no slots |
| `Routing.SlotsFromPairs` | src/index.ts:203-209 | a map built from the slots' pairs is their slots map |
| `Routing.BuildRequestIfNeeded` | src/index.ts:211-217 | a result with `Say` is expanded with the pre-turn state as the previous state; a wire body or a description without `Say` passes untouched; `undefined` throws a TypeError |
| `Routing.MapIntentResult` | src/index.ts:219-220 | the handler's throw or rejection passes unchanged; otherwise its settled result is expanded; the result is immediate exactly when the handler's is |
| `Routing.LookupIntent` | src/index.ts:238-250 | the standard table is consulted before the custom one; the custom entry found is the last one with the name; nothing is found exactly when neither table has the name |
| `Routing.Route` | src/index.ts:222-255 | handlers see the state read from the request; Launch gets an empty slot map; SessionEnded returns its callback's result unnormalised; intents go to the standard handler of their key, else the last custom handler of their name; an unclaimed request goes to `next` unchanged |
| `Routing.Router` | src/index.ts:222-255 | the router as a pipe hands every request it does not claim to `next` and returns `next`'s answer |
| `Routing.StandardShadowsCustom` | src/index.ts:242-250 | a custom route registered under a standard intent's platform name is never reached while that standard route exists |
| `Pipes.ProcessNext` | src/index.ts:260-270 | the continuation given to a step is the outer `next` once no steps remain, and answers as the outer `next` when every remaining step forwards |
| `Pipes.Join` | src/index.ts:258-272 | joining no steps forwards to `next`; joining one step is that step; a chain whose every step forwards hands the request to `next` |
| `Pipes.Unhandled` | src/index.ts:274-275 | the terminal throws 'Event unhandled' at once on every request |
| `Pipes.ToHandler` | src/index.ts:274-275 | a pipe closed into a handler throws 'Event unhandled' on every request the pipe forwards |
| `Pipes.Tracer` | src/index.ts:279-304 | the tracer forwards every request and returns `next`'s answer unchanged |
| `Pipes.DoNothing` | src/index.ts:306 | forwards every request to `next` |
| `Pipes.HandlerPipe` | src/index.ts:309-313 | `Handler.pipe` throws 'Event unhandled' on a request every step forwards |
| `Pipes.HandlerRouter` | src/index.ts:309-313 | `Handler.router` throws 'Event unhandled' on a request no route claims |
| `Pipes.Trace` | src/index.ts:279-304 | the tracer returns `next`'s outcome unchanged, including a throw or rejection; it logs the request and then either the response or the error |
| `Pipes.TracerAndDoNothingForward` | src/index.ts:279-306 | the tracer and the do-nothing pipe forward every request unchanged |
| `Pipes.SkipForwarders` | src/index.ts:258-272 | forwarding steps at the head of a chain are transparent: the chain behaves as its tail |
| `Pipes.JoinRunsInOrder` | src/index.ts:258-272 | past the forwarding steps, step `k` gets the request with a `next` that runs the later steps and then the outer `next` |
| `Pipes.ShortCircuit` | src/index.ts:258-272 | a step that answers without calling `next` decides the chain's answer, whatever the later steps and the outer `next` do |
| `Pipes.JoinReachesNext` | src/index.ts:258-272 | when every step forwards, the joined chain hands the request to the outer `next` |
| `Pipes.AllForwardUnhandled` | src/index.ts:274-275 | closed into a handler, a chain of forwarding steps throws 'Event unhandled' |
| `Testing.FakeRequestBody` | src/testing.ts:16-20 | a version 1.0 body around exactly the given session and request |
| `Testing.FakeLaunchRequest` | src/testing.ts:22-26 | a launch request with the fixed request id and the clock reading |
| `Testing.FakeIntentRequest` | src/testing.ts:28-36 | the intent name as given; omitted slots become an empty slot object, which gives no slots |
| `Testing.FakeSessionEnded` | src/testing.ts:38-43 | the reason as given, else USER_INITIATED |
| `Testing.FakeSession` | src/testing.ts:45-56 | a new session with no attributes, no access token and the fixed user and session ids |
| `Testing.DefaultBuilders` | src/testing.ts:96-101 | the defaults build a launch request stamped with the clock reading, an intent request with the given name and slots (an empty slot object when none are given), a session-ended request with the given reason or USER_INITIATED, and a new session with no attributes and no token |
| `Testing.ExtendBuilders` | src/testing.ts:103-114 | without overrides, the defaults; otherwise each supplied builder replaces its default and every other builder stays the default |
| `Testing.NewSimulator` | src/testing.ts:129-133 | the handler under test, the extended builders, and a session made by the Session builder |
| `Testing.LinkAccount` | src/testing.ts:135-138 | sets the access token and changes nothing else |
| `Testing.AfterTurn` | src/testing.ts:152-160 | after a turn the session is not new; attributes are replaced only by a reply's non-empty attribute map; nothing else changes |
| `Testing.Request` | src/testing.ts:152-160 | the outcome is the handler's; a failed turn leaves the simulator as it was; a successful one applies the turn update |
| `Testing.LaunchSkill` | src/testing.ts:140-142 | one turn on a version 1.0 request holding the session as it stands and the launch builder's request; a failed turn changes nothing; a successful one keeps the handler and builders, leaves the session not new, and replaces its attributes by the reply's attribute map when that map is non-empty |
| `Testing.RequestIntent` | src/testing.ts:144-146 | the same for the intent builder's request built from the name and slots, with the same session update |
| `Testing.EndSession` | src/testing.ts:148-150 | the same for the session-ended builder's request built from the reason, with the same session update |
| `Testing.TurnCarriesState` | src/testing.ts:140-160 | the requests the simulator builds after a turn read back the state that turn stored, or the previous state when none was set |
| `Testing.CounterReply` | test/testing.ts:8-29 | the counting skill answers a `Next` request by storing the state it read plus one |
| `Testing.CounterRouted` | test/testing.ts:8-29 | a `Next` request reaches the counting route with the state the request carries |
| `Testing.CountUpStores` | test/testing.ts:8-29 | the counting route's answer, once expanded, stores the count plus one |
| `Testing.CounterTurn` | test/testing.ts:8-29 | one `AMAZON.NextIntent` turn stores the held count plus one, and the simulator keeps it |
| `Testing.CountingFrom` | test/testing.ts:8-29 | `k` turns from a session holding `count` leave it storing `count + k` |
| `Testing.CountingSession` | test/testing.ts:8-29 | from a fresh simulator, the `n`-th `AMAZON.NextIntent` turn stores `n` (1, then 2, and so on) |
| `GuessingGame.StartNewGame` | examples/guessing-game.ts:12-16 | a fresh game on the drawn target with no tries, announced with the start text; the session stays open |
| `GuessingGame.HelpReply` | examples/guessing-game.ts:54-56 | the instructions; no new state and the session stays open |
| `GuessingGame.StopReply` | examples/guessing-game.ts:58-61 | an empty text that ends the session and sets no new state |
| `GuessingGame.ReadGuess` | examples/guessing-game.ts:30-33 | an empty `Guess` slot reads as no number; a filled one reads as its parse |
| `GuessingGame.CheckGuess` | examples/guessing-game.ts:17-52 | too low or too high counts a try and keeps the target; the right number finishes the game and reports `Guesses + 1` tries; no number sets no state |
| `GuessingGame.YesRoute` | examples/guessing-game.ts:89-95 | reading `state.Name` of `null` throws; a finished game starts a new one; otherwise the help reply |
| `GuessingGame.NoRoute` | examples/guessing-game.ts:96-102 | reading `state.Name` of `null` throws; a finished game stops; otherwise the help reply |
| `GuessingGame.HelpRoute` | examples/guessing-game.ts:103 | the help reply from every state, `null` included, since `help` never reads the state |
| `GuessingGame.StopRoute` | examples/guessing-game.ts:104 | the stop reply from every state, `null` included |
| `GuessingGame.GuessRoute` | examples/guessing-game.ts:107-113 | reading `state.Name` of `null` throws; a running game checks the guess against itself; otherwise against a freshly started game with no tries |
| `GuessingGame.GameRoutes` | examples/guessing-game.ts:85-115 | initial state NotStarted, a Launch route, no SessionEnded callback, standard routes for exactly Yes, No, Help and Stop, and the one custom route `GuessNumber` |
| `GuessingGame.FallbackAsWritten` | examples/guessing-game.ts:117-119 | the shipped fallback answers at once with its text, leaves the session open and stores `_alexaTsState: null`, whatever the request |
| `GuessingGame.FallbackCorrected` | examples/guessing-game.ts:117-119 | the corrected fallback answers the same text and stores again the state the request carried, or nothing when it carried none |
| `GuessingGame.GuessingPipe` | examples/guessing-game.ts:121-125 | the exported handler answers every request as the router with the fallback as its `next` |
| `GuessingGame.Step` | examples/guessing-game.ts:12-61 | the game machine never steps into `null`, and only a guess of a number finishes a game |
| `GuessingGame.StoredOn` | examples/guessing-game.ts:117-119 | the stored state exactly when the session holds one, and that state is what the router reads |
| `GuessingGame.PipeIsRoute` | examples/guessing-game.ts:121-125 | past the tracer, the skill is the router with the fallback as its `next` |
| `GuessingGame.DescSettles` | examples/guessing-game.ts:24-61 | a text description answers with a body storing its new state, else the pre-turn state, and ends the session exactly when it says so |
| `GuessingGame.StandardTurn` | examples/guessing-game.ts:88-105 | a standard route of the game answers the request named after its key |
| `GuessingGame.GuessIsCustom` | examples/guessing-game.ts:106-114 | `GuessNumber` is not the platform name of any standard intent |
| `GuessingGame.GuessTurn` | examples/guessing-game.ts:106-114 | a `GuessNumber` request reaches the custom guess route with the stored state and its slots |
| `GuessingGame.UnrecognisedUnclaimed` | examples/guessing-game.ts:85-115 | no route claims a request exactly when the machine reads it as unrecognised |
| `GuessingGame.HandlerSettles` | examples/guessing-game.ts:85-115 | from any state but `null`, each route's answer stores the state the machine steps to and ends the session exactly on Stop, or on No after a finished game |
| `GuessingGame.StandardDispatch` | examples/guessing-game.ts:88-105 | a standard intent is answered by the route its move names |
| `GuessingGame.StandardRouteFor` | examples/guessing-game.ts:88-105 | the standard table holds, under each key, the route of the move that key names |
| `GuessingGame.GuessDispatch` | examples/guessing-game.ts:106-114 | a guess is answered by the guess route and carries the number its slots give |
| `GuessingGame.GuessMove` | examples/guessing-game.ts:106-114 | a `GuessNumber` request is a guess of the number its slots give |
| `GuessingGame.GuessMoveOnlyFromGuessIntent` | examples/guessing-game.ts:106-114 | only a `GuessNumber` request is a guess |
| `GuessingGame.ClaimedDispatch` | examples/guessing-game.ts:85-115 | a claimed request reaches the route its move names, with the stored state and the request's slots |
| `GuessingGame.ClaimedTurn` | examples/guessing-game.ts:85-115 | a claimed request from any state but `null` settles as the machine says |
| `GuessingGame.CorrectedTurn` | examples/guessing-game.ts:85-125 | with the corrected fallback, every turn from a state other than `null` answers, stores the state the machine steps to, and ends the session exactly on the closing moves |
| `GuessingGame.WrongGuessesCount` | examples/guessing-game.ts:17-43 | a run of wrong guesses counts one try each and keeps the target |
| `GuessingGame.PlayAppend` | examples/guessing-game.ts:85-115 | playing one more turn is stepping from where the earlier turns led |
| `GuessingGame.RightGuessAfterWrong` | examples/guessing-game.ts:34-48 | after a run of wrong guesses in a game begun with `n` tries, the right guess finishes the game and is congratulated on `n` plus the run's length plus one tries |
| `GuessingGame.FallbackStoresNull` | examples/guessing-game.ts:117-119 | the shipped fallback stores `_alexaTsState: null` on every request no route claims |
| `GuessingGame.FallbackKeepsState` | examples/guessing-game.ts:117-125 | with the corrected fallback, an unclaimed request stores again the state it carried |
| `GuessingGame.NullStateThrows` | examples/guessing-game.ts:89-113 | from a stored `null`, Yes, No and every guess throw a TypeError instead of answering |
| `GuessingGame.NullRouteThrows` | examples/guessing-game.ts:89-113 | the routes that read the state throw on `null`, and the router passes the throw on |
| `GuessingGame.ShippedLosesGame` | examples/guessing-game.ts:107-125 | with the shipped fallback, a guess on the session an unrecognised request left behind throws |
| `GuessingGame.CorrectedKeepsGame` | examples/guessing-game.ts:107-125 | with the corrected fallback, the running game survives an unrecognised request and the next guess is checked against it |
| `GuessingGame.UnrecognisedThenGuess` | examples/guessing-game.ts:117-125 | with the shipped fallback a guess after an unrecognised request throws; with the corrected one the guess is checked against the running game |
| `KitchenSink.KitchenRoutes` | examples/kitchen-sink.ts:5-30 | initial state Started, Launch and SessionEnded routes, standard routes for exactly Help and Stop, and the one custom route `MyCustomIntent` |
| `KitchenSink.Auth` | examples/kitchen-sink.ts:32-42 | a request with a truthy access token goes to `next`; any other gets the link-account prompt at once |
| `KitchenSink.Fallback` | examples/kitchen-sink.ts:44-48 | answers every request with its text, ends the session and stores no state |
| `KitchenSink.KitchenPipe` | examples/kitchen-sink.ts:50-55 | the exported handler answers every request as the reference `Expected` |
| `KitchenSink.Expected` | examples/kitchen-sink.ts:5-55 | the skill never throws; it answers through a promise exactly on Launch with a linked account, and with `undefined` exactly on SessionEnded with a linked account |
| `KitchenSink.AuthForwardsIffLinked` | examples/kitchen-sink.ts:32-42 | the gate forwards a request exactly when the access token is truthy; otherwise it answers the link-account prompt whatever follows |
| `KitchenSink.UnlinkedGetsLinkPrompt` | examples/kitchen-sink.ts:32-55 | without a linked account the skill answers the link-account card with empty attributes |
| `KitchenSink.LinkedReachesRouter` | examples/kitchen-sink.ts:50-55 | with a linked account the skill is the router with the fallback as its `next`, and the fallback ends the session storing nothing |
| `KitchenSink.Normalises` | examples/kitchen-sink.ts:15-28 | a speech-only description becomes a body storing the pre-turn state |
| `KitchenSink.StandardAnswers` | examples/kitchen-sink.ts:15-23 | a standard route answers the request named after its key |
| `KitchenSink.HelpTurn` | examples/kitchen-sink.ts:16-18 | Help answers with its SSML and keeps the state |
| `KitchenSink.StopTurn` | examples/kitchen-sink.ts:19-22 | Stop says goodbye, ends the session and keeps the state |
| `KitchenSink.CustomTurn` | examples/kitchen-sink.ts:24-29 | `MyCustomIntent` is answered by its custom route, ending the session |
| `KitchenSink.LaunchTurn` | examples/kitchen-sink.ts:7-11 | Launch answers through a promise and moves the state to `Other` |
| `KitchenSink.OtherIntentUnclaimed` | examples/kitchen-sink.ts:5-30 | an intent neither table registers goes to `next` |
| `KitchenSink.KitchenTurn` | examples/kitchen-sink.ts:32-55 | on every request the skill answers exactly the written-out reference `Expected` |
| `KitchenSink.OnlyLaunchMovesState` | examples/kitchen-sink.ts:5-55 | only Launch changes the stored state; the gate and the fallback store none |

## Left out

- The `Lambda` adapter (`src/index.ts:315-334`) and `configure` (`src/testing.ts:72-87`) are callback plumbing for the host. `Testing.Execute` stands for both: it settles a handler's outcome. It is a helper with no property of its own.
- `Fake.lambdaContext` (`src/testing.ts:58-67`) holds constant host data that no modelled behaviour reads.
- The tracer's default `console.log`/`JSON.stringify` logger is I/O. The logger is modelled as the trace `Pipes.Trace` returns.
- Real promises, pending time and the exact order of microtasks are not modelled. A promise is represented by what it settles to.
- The clock in `Fake.timestamp` is the parameter `now`, one clock reading for the simulator's lifetime. The source reads the clock each time a request is built, so every request in a simulated session carries the same `timeStamp`. Nothing modelled reads `timeStamp`.
- `Math.random` in `startGuessing` is the parameter `target`, a value in 1..100. One turn draws at most one target, so one parameter per turn is enough.
- `parseInt(_, 10)` is the parameter `parse`. `None` stands for `NaN`.
- `src/json-types.ts` holds only type declarations. It shaped the datatypes of `Shapes`.
- `PromiseOrValue.then` is not defined in `src/index.ts`.
- JavaScript's distinction between a missing key and a key holding `undefined` is collapsed to `Option`. This covers `'NewState' in`, `'Launch' in` and `typeof previousState`. The same goes for a missing `Standard` or `Custom` table, which reads as an empty one.
- A missing `session` or `attributes` reads as an empty attribute map.
- Malformed slot entries, that is a slot without a `name`, are not modelled.
- The `typeof next !== 'undefined'` test in `Pipe.join` (`src/index.ts:262`) is not modelled. Every pipe receives a `next`, so that test cannot fail.
- The kitchen-sink SessionEnded callback's `console.log` is I/O. The callback is modelled as returning `undefined`.
- The order in which JavaScript lists object keys is not modelled. The slot object is given as a sequence in key order.
- `GuessingGame.CorrectedTurn`, `GuessingGame.ClaimedTurn` and `GuessingGame.HandlerSettles` state the stored state and the end flag, not the spoken text. The text is stated by `GuessingGame.CheckGuess` and written out in the route functions.
- Testing.CountingFrom: JavaScript numbers are doubles and the model's are unbounded integers. The counter's `state + 1` (test/testing.ts:14) is exact only below 2^53, so from 2^53 on the source stores the same value again while the model counts on. `Testing.CounterTurn`, `Testing.CountUpStores` and `Testing.CountingSession` share this bound.
- GuessingGame.CheckGuess: `state.Guesses + 1` (examples/guessing-game.ts:20 and :46) is likewise exact only below 2^53.
- Text.Decimal: renders an integer like JavaScript's `String(n)` only for `|n| < 10^21`. From there on JavaScript switches to exponent form, which affects the guess texts (examples/guessing-game.ts:36-46) and the counter's speech (test/testing.ts:13).
- `Testing.CounterTurn` and the counting lemmas run with the default intent builder only. Custom builders are covered by `Testing.ExtendBuilders`.

## Findings

| source | as written | input that shows it | evidently intended | confidence | as-written member | corrected member |
|---|---|---|---|---|---|---|
| examples/guessing-game.ts:117-119 | the fallback passes `null` as the previous state, so every unrecognised request stores `_alexaTsState: null` and wipes the running game | launch, then any request no route claims (for example SessionEnded or an unknown intent), then `GuessNumber` on the same session: the guess route reads `state.Name` of `null` and throws a TypeError; Yes and No do the same | the fallback keeps the stored game, so the next guess is checked against it | not executed | `GuessingGame.UnrecognisedThenGuess` | `GuessingGame.CorrectedTurn` |
