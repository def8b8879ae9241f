/** The shuttle reducer (`app/reducers/shuttle.js`): every known action copies
    the state and overwrites a fixed set of fields with values taken from the
    action; any other action hands back the state it was given. */
module Shuttle {
  import opened Js

  /** The shuttle slice of the Redux store. Every field holds whatever the
      actions put there, so each is a JavaScript value. */
  datatype ShuttleState = ShuttleState(
    toggles: Value,
    routes: Value,
    stops: Value,
    savedStops: Value,
    vehicles: Value,
    closestStop: Value,
    lastUpdated: Value,
    lastScroll: Value)

  /** The names of the state's fields, so that frame properties can quantify over them. */
  datatype StateField =
    | Toggles | Routes | Stops | SavedStops | Vehicles | ClosestStop | LastUpdated | LastScroll

  function Get(s: ShuttleState, f: StateField): Value
  {
    match f
    case Toggles => s.toggles
    case Routes => s.routes
    case Stops => s.stops
    case SavedStops => s.savedStops
    case Vehicles => s.vehicles
    case ClosestStop => s.closestStop
    case LastUpdated => s.lastUpdated
    case LastScroll => s.lastScroll
  }

  /** Two states with the same value in every field are the same state. */
  lemma SameFieldsSameState(a: ShuttleState, b: ShuttleState)
    requires forall f :: Get(a, f) == Get(b, f)
    ensures a == b
  {
    assert Get(a, Toggles) == Get(b, Toggles);
    assert Get(a, Routes) == Get(b, Routes);
    assert Get(a, Stops) == Get(b, Stops);
    assert Get(a, SavedStops) == Get(b, SavedStops);
    assert Get(a, Vehicles) == Get(b, Vehicles);
    assert Get(a, ClosestStop) == Get(b, ClosestStop);
    assert Get(a, LastUpdated) == Get(b, LastUpdated);
    assert Get(a, LastScroll) == Get(b, LastScroll);
  }

  const InitialState := ShuttleState(Null, Null, Null, Arr([]), Obj(map[]), Null, Num(0), Num(0))

  /** An action object: its own properties, `type` among them. */
  datatype Action = Action(props: map<string, Value>)

  /** `action[name]`: `undefined` for a property the action does not have. */
  function Prop(action: Action, name: string): Value
  {
    if name in action.props then action.props[name] else Undefined
  }

  function TypeOf(action: Action): Value
  {
    Prop(action, "type")
  }

  /** The state the reducer starts from: the default parameter applies when
      the store passes `undefined`. */
  function Current(state: Option<ShuttleState>): (s: ShuttleState)
    ensures state.Some? ==> s == state.value
    ensures state.None? ==>
              && s.toggles == Null && s.routes == Null && s.stops == Null
              && s.savedStops == Arr([]) && s.vehicles == Obj(map[]) && s.closestStop == Null
              && s.lastUpdated == Num(0) && s.lastScroll == Num(0)
  {
    if state.Some? then state.value else InitialState
  }

  /** Which fields each action type writes; the `switch` compares `type` with `===`. */
  function ChangedBy(actionType: Value): set<StateField>
  {
    if actionType == Str("SET_SHUTTLE_MASTER") then {Routes, Stops, Toggles, LastUpdated}
    else if actionType == Str("TOGGLE_ROUTE") then {Toggles, Stops}
    else if actionType == Str("SET_VEHICLES") then {Vehicles}
    else if actionType == Str("SET_CLOSEST_STOP") then {ClosestStop}
    else if actionType == Str("SET_ARRIVALS") then {Stops}
    else if actionType == Str("CHANGED_STOPS") then {SavedStops}
    else if actionType == Str("SET_SHUTTLE_SCROLL") then {LastScroll}
    else {}
  }

  /** The value a field receives whenever an action writes it: the action's
      property of the same name (`nowTime` for `lastUpdated`), a one-route
      object for `vehicles` and a shallow copy for `closestStop`. */
  function Assigned(action: Action, f: StateField): Value
  {
    match f
    case Toggles => Prop(action, "toggles")
    case Routes => Prop(action, "routes")
    case Stops => Prop(action, "stops")
    case SavedStops => Prop(action, "savedStops")
    case Vehicles => Obj(map[PropertyKey(Prop(action, "route")) := Prop(action, "vehicles")])
    case ClosestStop => ShallowCopy(Prop(action, "closestStop"))
    case LastUpdated => Prop(action, "nowTime")
    case LastScroll => Prop(action, "lastScroll")
  }

  /** `shuttle(state, action)`: the fields the action type names take the
      action's values, every other field keeps its value. */
  function Reduce(state: Option<ShuttleState>, action: Action): (r: ShuttleState)
    ensures forall f ::
              Get(r, f) == if f in ChangedBy(TypeOf(action)) then Assigned(action, f) else Get(Current(state), f)
  {
    var s := Current(state);
    var t := TypeOf(action);
    if t == Str("SET_SHUTTLE_MASTER") then
      s.(routes := Prop(action, "routes"), stops := Prop(action, "stops"),
         toggles := Prop(action, "toggles"), lastUpdated := Prop(action, "nowTime"))
    else if t == Str("TOGGLE_ROUTE") then
      s.(toggles := Prop(action, "toggles"), stops := Prop(action, "stops"))
    else if t == Str("SET_VEHICLES") then
      var veh := map[PropertyKey(Prop(action, "route")) := Prop(action, "vehicles")];
      s.(vehicles := Obj(veh))
    else if t == Str("SET_CLOSEST_STOP") then
      s.(closestStop := ShallowCopy(Prop(action, "closestStop")))
    else if t == Str("SET_ARRIVALS") then
      s.(stops := Prop(action, "stops"))
    else if t == Str("CHANGED_STOPS") then
      s.(savedStops := Prop(action, "savedStops"))
    else if t == Str("SET_SHUTTLE_SCROLL") then
      s.(lastScroll := Prop(action, "lastScroll"))
    else
      s
  }

  /** An action the reducer does not know leaves the state as it was; on the
      store's first call that is the initial state. */
  lemma UnknownActionKeepsState(state: Option<ShuttleState>, action: Action)
    requires ChangedBy(TypeOf(action)) == {}
    ensures Reduce(state, action) == Current(state)
    ensures state.None? ==> Reduce(state, action) == InitialState
  {
    SameFieldsSameState(Reduce(state, action), Current(state));
  }

  /** Dispatching the same action twice has the effect of dispatching it once. */
  lemma ReduceIdempotent(state: Option<ShuttleState>, action: Action)
    ensures var once := Reduce(state, action); Reduce(Some(once), action) == once
  {
    var once := Reduce(state, action);
    SameFieldsSameState(Reduce(Some(once), action), once);
  }

  /** `SET_VEHICLES` keeps only the vehicles of the route it names. */
  lemma SetVehiclesKeepsOneRoute(state: Option<ShuttleState>, action: Action)
    requires TypeOf(action) == Str("SET_VEHICLES")
    ensures var v := Reduce(state, action).vehicles;
      var route := PropertyKey(Prop(action, "route"));
      v.Obj? && v.fields.Keys == {route} && v.fields[route] == Prop(action, "vehicles")
  {
    assert Get(Reduce(state, action), Vehicles) == Assigned(action, Vehicles);
  }

  /** `SET_CLOSEST_STOP` always stores an object: the action's own object, or an
      empty one when the action carries `null` or `undefined`. */
  lemma ClosestStopIsObject(state: Option<ShuttleState>, action: Action)
    requires TypeOf(action) == Str("SET_CLOSEST_STOP")
    ensures var c := Reduce(state, action).closestStop;
      var given := Prop(action, "closestStop");
      c.Obj? && (given.Obj? ==> c == given) && (given.Null? || given.Undefined? ==> c == Obj(map[]))
  {
    assert Get(Reduce(state, action), ClosestStop) == Assigned(action, ClosestStop);
  }
}
