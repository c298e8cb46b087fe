/**
 * The intent router: a pipe built from a table of routes that reads the session
 * state, picks a handler by request type and intent name, and expands the
 * handler's result into a wire response carrying the state forward.
 */
module Routing {
  import opened Wrappers
  import opened Deferred
  import opened Shapes
  import opened Normalise

  // ------------------------------------------------------- standard intents

  /** The keys of `StandardIntentRoutes`, one per built-in platform intent. */
  datatype StandardIntent =
    | Cancel | Help | LoopOff | LoopOn | Next | No | Pause | Previous
    | Repeat | Resume | ShuffleOff | ShuffleOn | StartOver | Stop | Yes

  /** The property name of a standard route. */
  function Key(k: StandardIntent): string {
    match k
    case Cancel => "Cancel"
    case Help => "Help"
    case LoopOff => "LoopOff"
    case LoopOn => "LoopOn"
    case Next => "Next"
    case No => "No"
    case Pause => "Pause"
    case Previous => "Previous"
    case Repeat => "Repeat"
    case Resume => "Resume"
    case ShuffleOff => "ShuffleOff"
    case ShuffleOn => "ShuffleOn"
    case StartOver => "StartOver"
    case Stop => "Stop"
    case Yes => "Yes"
  }

  /** The standard route a property name denotes, if any. */
  function KeyFromString(s: string): (r: Option<StandardIntent>)
    ensures r.Some? ==> Key(r.value) == s
  {
    if s == "Cancel" then Some(Cancel)
    else if s == "Help" then Some(Help)
    else if s == "LoopOff" then Some(LoopOff)
    else if s == "LoopOn" then Some(LoopOn)
    else if s == "Next" then Some(Next)
    else if s == "No" then Some(No)
    else if s == "Pause" then Some(Pause)
    else if s == "Previous" then Some(Previous)
    else if s == "Repeat" then Some(Repeat)
    else if s == "Resume" then Some(Resume)
    else if s == "ShuffleOff" then Some(ShuffleOff)
    else if s == "ShuffleOn" then Some(ShuffleOn)
    else if s == "StartOver" then Some(StartOver)
    else if s == "Stop" then Some(Stop)
    else if s == "Yes" then Some(Yes)
    else None
  }

  const IntentPrefix: string := "AMAZON."
  const IntentSuffix: string := "Intent"

  /** The platform's intent name for a standard key `K`: `AMAZON.<K>Intent`. */
  function IntentName(k: StandardIntent): string {
    IntentPrefix + Key(k) + IntentSuffix
  }

  /** The standard key whose intent name is `name`, if any. */
  function StandardFromName(name: string): Option<StandardIntent> {
    if |name| >= |IntentPrefix| + |IntentSuffix|
       && name[..|IntentPrefix|] == IntentPrefix
       && name[|name| - |IntentSuffix|..] == IntentSuffix
    then KeyFromString(name[|IntentPrefix|..|name| - |IntentSuffix|])
    else None
  }

  /** `StandardFromName` inverts `IntentName` exactly, in both directions. */
  lemma {:induction false} StandardNameRoundTrip(k: StandardIntent, name: string)
    ensures StandardFromName(IntentName(k)) == Some(k)
    ensures StandardFromName(name) == Some(k) ==> IntentName(k) == name
  {
    var n := IntentName(k);
    assert n[..|IntentPrefix|] == IntentPrefix;
    assert n[|n| - |IntentSuffix|..] == IntentSuffix;
    assert n[|IntentPrefix|..|n| - |IntentSuffix|] == Key(k);
    assert KeyFromString(Key(k)) == Some(k) by {
      match k
      case Cancel => case Help => case LoopOff => case LoopOn => case Next =>
      case No => case Pause => case Previous => case Repeat => case Resume =>
      case ShuffleOff => case ShuffleOn => case StartOver => case Stop => case Yes =>
    }
    if StandardFromName(name) == Some(k) {
      var middle := name[|IntentPrefix|..|name| - |IntentSuffix|];
      assert Key(k) == middle;
      assert name == name[..|IntentPrefix|] + middle + name[|name| - |IntentSuffix|..];
    }
  }

  /** Distinct standard keys have distinct intent names. */
  lemma IntentNameInjective()
    ensures forall j, k :: IntentName(j) == IntentName(k) ==> j == k
  {
    forall j, k | IntentName(j) == IntentName(k)
      ensures j == k
    {
      StandardNameRoundTrip(j, "");
      StandardNameRoundTrip(k, "");
    }
  }

  /**
   * `handlerObjToMap`: re-keys the standard routes by platform intent name. A
   * name is in the result exactly when it is `AMAZON.<K>Intent` for a registered `K`.
   */
  function HandlerObjToMap<S>(standard: map<StandardIntent, IntentHandler<S>>): (r: map<string, IntentHandler<S>>)
    ensures forall name :: name in r <==> StandardFromName(name).Some? && StandardFromName(name).value in standard
    ensures forall k :: k in standard ==> IntentName(k) in r && r[IntentName(k)] == standard[k]
  {
    IntentNameInjective();
    var r := map k | k in standard.Keys :: IntentName(k) := standard[k];
    assert forall name :: name in r <==> StandardFromName(name).Some? && StandardFromName(name).value in standard by {
      forall name
        ensures name in r <==> StandardFromName(name).Some? && StandardFromName(name).value in standard
      {
        if name in r {
          var k :| k in standard && IntentName(k) == name;
          StandardNameRoundTrip(k, name);
        }
        if StandardFromName(name).Some? {
          StandardNameRoundTrip(StandardFromName(name).value, name);
        }
      }
    }
    r
  }

  // ------------------------------------------------------------ keyed tables

  /** Entry `i` is the last one in `pairs` with its key. */
  ghost predicate IsLast<V>(pairs: seq<(string, V)>, i: int) {
    0 <= i < |pairs| && forall j :: i < j < |pairs| ==> pairs[j].0 != pairs[i].0
  }

  /** What `new Map(pairs)` promises about a map built from `pairs`. */
  ghost predicate BuiltFrom<V>(pairs: seq<(string, V)>, r: map<string, V>) {
    && (forall i :: 0 <= i < |pairs| ==> pairs[i].0 in r)
    && (forall key :: key in r ==> exists i :: 0 <= i < |pairs| && pairs[i].0 == key)
    && (forall i :: IsLast(pairs, i) ==> r[pairs[i].0] == pairs[i].1)
  }

  /**
   * `new Map(pairs)`: inserting the pairs in order, so that for a repeated key
   * the last pair wins.
   */
  function NewMap<V>(pairs: seq<(string, V)>): (r: map<string, V>)
    ensures BuiltFrom(pairs, r)
    decreases |pairs|
  {
    if |pairs| == 0 then
      map[]
    else
      var init := pairs[..|pairs| - 1];
      var last := pairs[|pairs| - 1];
      var m := NewMap(init);
      assert pairs == init + [last];
      NewMapStep(init, last, m);
      m[last.0 := last.1]
  }

  /** Inserting one more pair keeps a map built from the earlier pairs built from all of them. */
  lemma NewMapStep<V>(init: seq<(string, V)>, last: (string, V), m: map<string, V>)
    requires BuiltFrom(init, m)
    ensures BuiltFrom(init + [last], m[last.0 := last.1])
  {
    var pairs := init + [last];
    var r := m[last.0 := last.1];
    forall i | 0 <= i < |pairs|
      ensures pairs[i].0 in r
    {
      if i < |init| {
        assert pairs[i] == init[i];
      }
    }
    forall key | key in r
      ensures exists i :: 0 <= i < |pairs| && pairs[i].0 == key
    {
      if key == last.0 {
        assert pairs[|pairs| - 1].0 == key;
      } else {
        var i :| 0 <= i < |init| && init[i].0 == key;
        assert pairs[i] == init[i];
      }
    }
    forall i | IsLast(pairs, i)
      ensures r[pairs[i].0] == pairs[i].1
    {
      if i < |init| {
        assert pairs[i] == init[i];
        assert pairs[|pairs| - 1].0 != pairs[i].0;
        assert IsLast(init, i) by {
          forall j | i < j < |init|
            ensures init[j].0 != init[i].0
          {
            assert init[j] == pairs[j];
          }
        }
      }
    }
  }

  /** The (name, value) pairs of a slot object, in key order. */
  function SlotPairs(entries: seq<(string, Slot)>): (r: seq<(string, Option<string>)>)
    ensures |r| == |entries|
    ensures forall i :: 0 <= i < |entries| ==> r[i] == (entries[i].1.name, entries[i].1.value)
  {
    seq(|entries|, i requires 0 <= i < |entries| => (entries[i].1.name, entries[i].1.value))
  }

  /** Slot `i` is the last one in the object with its name. */
  ghost predicate LastNamed(entries: seq<(string, Slot)>, i: int) {
    0 <= i < |entries| && forall j :: i < j < |entries| ==> entries[j].1.name != entries[i].1.name
  }

  /**
   * The slots map of an object: keyed by each slot's own `name`, every name
   * present and no other, each holding the value of the last slot with it.
   */
  ghost predicate SlotsOf(entries: seq<(string, Slot)>, r: Slots) {
    && (forall i :: 0 <= i < |entries| ==> entries[i].1.name in r)
    && (forall name :: name in r ==> exists i :: 0 <= i < |entries| && entries[i].1.name == name)
    && (forall i :: LastNamed(entries, i) ==> entries[i].1.name in r && r[entries[i].1.name] == entries[i].1.value)
  }

  /**
   * `slotsToMap`: slots keyed by each slot's own `name` rather than its schema
   * key; the last slot with a name wins; a non-object gives no slots.
   */
  function SlotsToMap(slots: RawSlots): (r: Slots)
    ensures slots.NotAnObject? ==> r == map[]
    ensures slots.SlotObject? ==> SlotsOf(slots.entries, r)
  {
    match slots
    case NotAnObject => map[]
    case SlotObject(entries) =>
      var r := NewMap(SlotPairs(entries));
      SlotsFromPairs(entries, r);
      r
  }

  /** A map built from the (name, value) pairs of the slots is their slots map. */
  lemma SlotsFromPairs(entries: seq<(string, Slot)>, r: Slots)
    requires BuiltFrom(SlotPairs(entries), r)
    ensures SlotsOf(entries, r)
  {
    var pairs := SlotPairs(entries);
    forall name | name in r
      ensures exists i :: 0 <= i < |entries| && entries[i].1.name == name
    {
      var i :| 0 <= i < |pairs| && pairs[i].0 == name;
      assert entries[i].1.name == name;
    }
    forall i | LastNamed(entries, i)
      ensures entries[i].1.name in r && r[entries[i].1.name] == entries[i].1.value
    {
      assert IsLast(pairs, i);
    }
  }

  // ------------------------------------------------------------------ routes

  /** `Routes<State>`: the table a router is built from. Absent tables are empty. */
  datatype Routes<!S> = Routes(
    initialState: S,
    launch: Option<IntentHandler<S>>,
    sessionEnded: Option<() -> Eval<Reply<S>>>,
    standard: map<StandardIntent, IntentHandler<S>>,
    custom: seq<(string, IntentHandler<S>)>)

  /** The standard route registered for an intent name, if any. */
  ghost predicate StandardClaims<S>(routes: Routes<S>, name: string) {
    StandardFromName(name).Some? && StandardFromName(name).value in routes.standard
  }

  /** Some custom route is registered under an intent name. */
  ghost predicate CustomClaims<S>(routes: Routes<S>, name: string) {
    exists i :: 0 <= i < |routes.custom| && routes.custom[i].0 == name
  }

  /** No route of the table answers this request. */
  ghost predicate Unclaimed<S>(routes: Routes<S>, request: Request) {
    match request
    case LaunchRequest(_, _) => routes.launch.None?
    case SessionEndedRequest(_, _, _) => routes.sessionEnded.None?
    case IntentRequest(_, _, intent) =>
      !StandardClaims(routes, intent.name) && !CustomClaims(routes, intent.name)
    case OtherRequest(_, _, _) => true
  }

  /**
   * `buildRequestIfNeeded`: a result with a `Say` field is expanded with the
   * pre-turn state as the previous state; any other object passes untouched.
   * `'Say' in undefined` throws, so an empty result is an error.
   */
  function BuildRequestIfNeeded<S>(output: Reply<S>, previous: S): (r: Result<Reply<S>>)
    ensures output.Body? || (output.Desc? && output.desc.say.None?) ==> r == Ok(output)
    ensures output.Void? ==> r.Err? && r.error.TypeError?
    ensures output.Desc? && output.desc.say.Some? ==>
      (r.Ok? <==> MakeResponse(output.desc).Ok?)
      && (r.Err? ==> r.error == Error(NoSpeechMessage))
    ensures output.Desc? && output.desc.say.Some? && r.Ok? ==>
      r.value.Body?
      && r.value.body.response == MakeResponse(output.desc).value
      && r.value.body.sessionAttributes == Some(map[AttributeKey := output.desc.newState.GetOr(previous)])
  {
    match output
    case Desc(desc) =>
      if desc.say.Some? then
        var body := BuildResponse(desc, Some(previous));
        if body.Err? then Err(body.error) else Ok(Body(body.value))
      else
        Ok(output)
    case Body(_) => Ok(output)
    case Void => Err(TypeError("Cannot use 'in' operator to search for 'Say' in undefined"))
  }

  /** `mapIntentResult`: normalises a handler's result once it has settled. */
  function MapIntentResult<S>(result: Eval<Reply<S>>, state: S): (r: Eval<Reply<S>>)
    ensures r.Now? <==> result.Now?
    ensures result.value.Err? ==> r.value == result.value
    ensures result.value.Ok? ==> r.value == BuildRequestIfNeeded(result.value.value, state)
  {
    Then(result, (output: Reply<S>) => Now(BuildRequestIfNeeded(output, state)))
  }

  /**
   * The intent-request lookup of `router`: the standard table re-keyed by
   * platform name first, then the custom table; nothing when neither has the name.
   */
  function LookupIntent<S>(routes: Routes<S>, name: string): (r: Option<IntentHandler<S>>)
    ensures r.None? <==> !StandardClaims(routes, name) && !CustomClaims(routes, name)
    ensures StandardClaims(routes, name) ==> r == Some(routes.standard[StandardFromName(name).value])
    ensures !StandardClaims(routes, name) ==>
      forall i :: IsLast(routes.custom, i) && routes.custom[i].0 == name ==> r == Some(routes.custom[i].1)
  {
    var standardIntents := HandlerObjToMap(routes.standard);
    var customIntents := NewMap(routes.custom);
    if name in standardIntents then
      StandardNameRoundTrip(StandardFromName(name).value, name);
      Some(standardIntents[name])
    else if name in customIntents then
      Some(customIntents[name])
    else
      None
  }

  /**
   * One turn of the router pipe. The state every handler sees is the one read
   * from the request; standard routes are tried before custom ones; a request no
   * route answers goes to `next` unchanged.
   */
  function Route<S>(routes: Routes<S>, event: RequestBody<S>, next: Handler<S>): (r: Eval<Reply<S>>)
    ensures Unclaimed(routes, event.request) ==> r == next(event)
    ensures event.request.LaunchRequest? && routes.launch.Some? ==>
      var state := FromRequest(event, routes.initialState);
      r == MapIntentResult(routes.launch.value(state, map[], event, next), state)
    ensures event.request.SessionEndedRequest? && routes.sessionEnded.Some? ==>
      r == routes.sessionEnded.value()
    ensures event.request.IntentRequest? ==>
      var state := FromRequest(event, routes.initialState);
      var name := event.request.intent.name;
      var slots := SlotsToMap(event.request.intent.slots);
      forall k :: k in routes.standard && StandardFromName(name) == Some(k) ==>
        r == MapIntentResult(routes.standard[k](state, slots, event, next), state)
    ensures event.request.IntentRequest? && !StandardClaims(routes, event.request.intent.name) ==>
      var state := FromRequest(event, routes.initialState);
      var name := event.request.intent.name;
      var slots := SlotsToMap(event.request.intent.slots);
      forall i :: IsLast(routes.custom, i) && routes.custom[i].0 == name ==>
        r == MapIntentResult(routes.custom[i].1(state, slots, event, next), state)
  {
    var state := FromRequest(event, routes.initialState);
    match event.request
    case LaunchRequest(_, _) =>
      if routes.launch.Some? then
        MapIntentResult(routes.launch.value(state, map[], event, next), state)
      else
        next(event)
    case SessionEndedRequest(_, _, _) =>
      if routes.sessionEnded.Some? then routes.sessionEnded.value() else next(event)
    case IntentRequest(_, _, intent) =>
      var slots := SlotsToMap(intent.slots);
      var handler := LookupIntent(routes, intent.name);
      if handler.Some? then
        MapIntentResult(handler.value(state, slots, event, next), state)
      else
        next(event)
    case OtherRequest(_, _, _) =>
      next(event)
  }

  /** `router`: the route table as a pipe, which hands every request it does not claim to `next`. */
  function Router<S(!new)>(routes: Routes<S>): (r: Pipe<S>)
    ensures forall event: RequestBody<S>, next: Handler<S> {:trigger Unclaimed(routes, event.request), r(event, next)} ::
      Unclaimed(routes, event.request) ==> r(event, next) == next(event)
  {
    (event: RequestBody<S>, next: Handler<S>) => Route(routes, event, next)
  }

  /**
   * A custom route registered under a standard intent's platform name is never
   * reached while that standard route is registered.
   */
  lemma StandardShadowsCustom<S>(routes: Routes<S>, event: RequestBody<S>, next: Handler<S>, k: StandardIntent, i: int)
    requires event.request.IntentRequest? && event.request.intent.name == IntentName(k)
    requires k in routes.standard
    requires 0 <= i < |routes.custom| && routes.custom[i].0 == IntentName(k)
    ensures var state := FromRequest(event, routes.initialState);
      Route(routes, event, next)
        == MapIntentResult(routes.standard[k](state, SlotsToMap(event.request.intent.slots), event, next), state)
  {
    StandardNameRoundTrip(k, IntentName(k));
  }
}
