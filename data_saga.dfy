/** One pass of the background refresh loop (`watchData`): which services it
    calls and which actions it dispatches, in order, given a snapshot of the
    store, the current time in milliseconds and what each service returns.
    Service calls are inputs (`Reply`), never performed. */
module DataSaga {
  import opened Js
  import opened Seqs
  import Settings

  type Id = string

  /** The domains refreshed behind a plain time-to-live gate. */
  datatype Domain = Weather | Surf | Links | Events | News

  /** The services a cycle calls. */
  datatype Service =
    | FetchWeather
    | FetchSurf
    | FetchConference
    | FetchQuicklinks
    | FetchEvents
    | FetchNews
    | FetchSurveyIds
    | FetchSurveyById(id: Id)

  /** A fetched conference: its time window (milliseconds) and the ids of its
      sessions. Its other fields are carried along untouched and not modelled. */
  datatype Conference = Conference(startTime: int, endTime: int, uids: seq<Id>)

  /** The actions the cycle dispatches to the store. */
  datatype Action =
    | SetWeather(weather: Value)
    | SetSurf(surf: Value)
    | SetLinks(links: Value)
    | SetEvents(events: Value)
    | SetNews(news: Value)
    | ChangedConferenceSaved(saved: seq<Id>)
    | SetConference(conference: Conference)
    | UpdateCardState(cardId: string, state: bool)
    | UpdateAutoactivatedState(cardId: string, state: bool)
    | SetSurvey(surveyId: Id, survey: Value)
    | SetSurveyIds(surveyIds: seq<Id>)
    | UpdateDining

  /** A saga effect: a service call, a dispatched action, or the pause. */
  datatype Effect = Call(service: Service) | Put(action: Action) | Delay(ms: int)

  /** What a service call gives back: a value, or an exception. */
  datatype Reply<T> = Threw | Returned(value: T)

  /** The effects of one step, and whether it ended by an exception. */
  datatype Run = Run(effects: seq<Effect>, threw: bool)

  /** A domain's slice of the store. */
  datatype Cached = Cached(lastUpdated: int, data: Value)

  /** The conference slice: when it was last fetched and the saved session ids. */
  datatype ConferenceSlice = ConferenceSlice(lastUpdated: int, saved: MaybeArray<Id>)

  /** The conference card's flags as the card slice holds them. */
  datatype CardFlags = CardFlags(active: Value, autoActivated: Value)

  /** The parts of the store the cycle selects. */
  datatype Store = Store(
    weather: Cached,
    surf: Cached,
    links: Cached,
    events: Cached,
    news: Cached,
    conference: ConferenceSlice,
    conferenceCard: CardFlags,
    knownSurveys: seq<Id>)

  /** What each service returns during the cycle. A falsy conference is `None`. */
  datatype Replies = Replies(
    weather: Reply<Value>,
    surf: Reply<Value>,
    links: Reply<Value>,
    events: Reply<Value>,
    news: Reply<Value>,
    conference: Reply<Option<Conference>>,
    surveyIds: Reply<MaybeArray<Id>>,
    surveyById: Id -> Reply<Value>)

  const ConferenceCard: string := "conference"

  /** The pause after every cycle, in milliseconds. */
  const CyclePause: int := Settings.DataSagaTtl * 1000

  // ---------------------------------------------------------------------------
  // Time-to-live gates of weather, surf, links, events and news

  function TtlSeconds(d: Domain): int
  {
    match d
    case Weather => Settings.WeatherApiTtl
    case Surf => Settings.SurfApiTtl
    case Links => Settings.QuicklinksApiTtl
    case Events => Settings.EventsApiTtl
    case News => Settings.NewsApiTtl
  }

  function Fetcher(d: Domain): Service
  {
    match d
    case Weather => FetchWeather
    case Surf => FetchSurf
    case Links => FetchQuicklinks
    case Events => FetchEvents
    case News => FetchNews
  }

  function Publish(d: Domain, v: Value): Action
  {
    match d
    case Weather => SetWeather(v)
    case Surf => SetSurf(v)
    case Links => SetLinks(v)
    case Events => SetEvents(v)
    case News => SetNews(v)
  }

  /** Events and news publish whatever their service returned; the others only a truthy result. */
  predicate PublishesFalsy(d: Domain)
  {
    d == Events || d == News
  }

  /** The cached entry is younger than the time-to-live and holds data: the step skips the fetch. */
  predicate CacheFresh(entry: Cached, ttlSeconds: int, now: int)
  {
    now - entry.lastUpdated < ttlSeconds * 1000 && Truthy(entry.data)
  }

  /** One gated refresh step (`updateWeather`, `updateSurf`, `updateLinks`,
      `updateEvents`, `updateNews`). */
  function DomainStep(d: Domain, entry: Cached, now: int, reply: Reply<Value>): (r: Run)
    ensures r.effects == [] <==> CacheFresh(entry, TtlSeconds(d), now)
    ensures now - entry.lastUpdated >= TtlSeconds(d) * 1000 ==> r.effects[0] == Call(Fetcher(d))
    ensures !Truthy(entry.data) ==> r.effects[0] == Call(Fetcher(d))
    ensures r.threw <==> !CacheFresh(entry, TtlSeconds(d), now) && reply.Threw?
    ensures |r.effects| <= 2
    ensures |r.effects| == 2 <==>
              !CacheFresh(entry, TtlSeconds(d), now) && reply.Returned? &&
              (Truthy(reply.value) || PublishesFalsy(d))
    ensures |r.effects| == 2 ==> r.effects[1] == Put(Publish(d, reply.value))
  {
    if CacheFresh(entry, TtlSeconds(d), now) then Run([], false)
    else
      match reply
      case Threw => Run([Call(Fetcher(d))], true)
      case Returned(v) =>
        Run([Call(Fetcher(d))] + (if Truthy(v) || PublishesFalsy(d) then [Put(Publish(d, v))] else []), false)
  }

  /** Weather, surf and links publish only a truthy result, once the gate opens. */
  lemma OthersPublishOnlyTruthy(d: Domain, entry: Cached, now: int, v: Value)
    requires d == Weather || d == Surf || d == Links
    requires !CacheFresh(entry, TtlSeconds(d), now)
    ensures Truthy(v) ==> DomainStep(d, entry, now, Returned(v)).effects == [Call(Fetcher(d)), Put(Publish(d, v))]
    ensures !Truthy(v) ==> DomainStep(d, entry, now, Returned(v)).effects == [Call(Fetcher(d))]
  {
  }

  /** Events and news publish whatever their service returned, a falsy value included. */
  lemma EventsAndNewsPublishAnything(d: Domain, entry: Cached, now: int, v: Value)
    requires d == Events || d == News
    requires !CacheFresh(entry, TtlSeconds(d), now)
    ensures DomainStep(d, entry, now, Returned(v)) == Run([Call(Fetcher(d)), Put(Publish(d, v))], false)
  {
  }

  // ---------------------------------------------------------------------------
  // savedExists

  function ListedIn(ids: seq<Id>): Id -> bool
  {
    id => id in ids
  }

  /** The saved ids that the schedule still lists, in saved order; `[]` for a non-array. */
  function StillListed(scheduleIds: seq<Id>, savedArray: MaybeArray<Id>): seq<Id>
  {
    match savedArray
    case NotArray => []
    case Array(items) => Filter(items, ListedIn(scheduleIds))
  }

  method SavedExists(scheduleIds: seq<Id>, savedArray: MaybeArray<Id>) returns (existsArray: seq<Id>)
    ensures existsArray == StillListed(scheduleIds, savedArray)
  {
    existsArray := [];
    if savedArray.Array? {
      var items := savedArray.items;
      for i := 0 to |items|
        invariant existsArray == Filter(items[..i], ListedIn(scheduleIds))
      {
        assert items[..i + 1] == items[..i] + [items[i]];
        FilterSnoc(items[..i], items[i], ListedIn(scheduleIds));
        if items[i] in scheduleIds {
          existsArray := existsArray + [items[i]];
        }
      }
      assert items[..|items|] == items;
    }
  }

  /** What `savedExists` keeps: exactly the listed saved ids, each as often as it
      was saved, in saved order. */
  lemma StillListedKeepsListed(scheduleIds: seq<Id>, savedArray: MaybeArray<Id>)
    ensures savedArray.NotArray? ==> StillListed(scheduleIds, savedArray) == []
    ensures savedArray.Array? ==>
              IsSubsequence(StillListed(scheduleIds, savedArray), savedArray.items)
    ensures forall id :: id in StillListed(scheduleIds, savedArray) <==>
              savedArray.Array? && id in savedArray.items && id in scheduleIds
    ensures savedArray.Array? ==> forall id :: id in scheduleIds ==>
              multiset(StillListed(scheduleIds, savedArray))[id] == multiset(savedArray.items)[id]
  {
    if savedArray.Array? {
      var items := savedArray.items;
      FilterIsSubsequence(items, ListedIn(scheduleIds));
      forall id
        ensures id in StillListed(scheduleIds, savedArray) <==> id in items && id in scheduleIds
      {
        FilterMembership(items, ListedIn(scheduleIds), id);
      }
      forall id | id in scheduleIds
        ensures multiset(StillListed(scheduleIds, savedArray))[id] == multiset(items)[id]
      {
        FilterMultiplicity(items, ListedIn(scheduleIds), id);
      }
    }
  }

  // ---------------------------------------------------------------------------
  // updateConference

  /** The conference gate: strictly older than the time-to-live, and `saved` an array. */
  predicate ConferenceDue(slice: ConferenceSlice, now: int)
  {
    now - slice.lastUpdated > Settings.ConferenceTtl * 1000 && slice.saved.Array?
  }

  /** The window includes both its ends. */
  predicate InWindow(conference: Conference, now: int)
  {
    conference.startTime <= now && now <= conference.endTime
  }

  /** The actions dispatched once a truthy conference has been fetched. */
  function ConferenceActions(conference: Conference, saved: seq<Id>, card: CardFlags, now: int): seq<Action>
  {
    if InWindow(conference, now) then
      if card.autoActivated == Bool(false) then
        [ ChangedConferenceSaved([]), SetConference(conference),
          UpdateCardState(ConferenceCard, true), UpdateAutoactivatedState(ConferenceCard, true) ]
      else if Truthy(card.active) then
        (if |saved| > 0 then [ChangedConferenceSaved(StillListed(conference.uids, Array(saved)))] else [])
        + [SetConference(conference)]
      else []
    else if Truthy(card.autoActivated) then
      [UpdateCardState(ConferenceCard, false), UpdateAutoactivatedState(ConferenceCard, false)]
    else []
  }

  function Puts(actions: seq<Action>): (r: seq<Effect>)
    ensures |r| == |actions|
    ensures forall i :: 0 <= i < |actions| ==> r[i] == Put(actions[i])
  {
    if actions == [] then [] else [Put(actions[0])] + Puts(actions[1..])
  }

  /** `updateConference`: nothing at all unless the gate is open; otherwise the
      fetch comes first, and a throw ends the step right after it. */
  function ConferenceStep(slice: ConferenceSlice, card: CardFlags, now: int, reply: Reply<Option<Conference>>): (r: Run)
    ensures r.effects == [] <==> !ConferenceDue(slice, now)
    ensures r.effects != [] ==> r.effects[0] == Call(FetchConference)
    ensures r.threw <==> ConferenceDue(slice, now) && reply.Threw?
    ensures r.threw ==> r.effects == [Call(FetchConference)]
  {
    if !ConferenceDue(slice, now) then Run([], false)
    else
      match reply
      case Threw => Run([Call(FetchConference)], true)
      case Returned(None) => Run([Call(FetchConference)], false)
      case Returned(Some(conference)) =>
        Run([Call(FetchConference)] + Puts(ConferenceActions(conference, slice.saved.items, card, now)), false)
  }

  method UpdateConference(slice: ConferenceSlice, card: CardFlags, now: int, reply: Reply<Option<Conference>>)
    returns (run: Run)
    ensures run == ConferenceStep(slice, card, now, reply)
  {
    var effects: seq<Effect> := [];
    var timeDiff := now - slice.lastUpdated;
    if timeDiff > Settings.ConferenceTtl * 1000 && slice.saved.Array? {
      effects := effects + [Call(FetchConference)];
      if reply.Threw? {
        return Run(effects, true);
      }
      if reply.value.Some? {
        var conference := reply.value.value;
        var saved := slice.saved.items;
        if conference.startTime <= now && conference.endTime >= now {
          if card.autoActivated == Bool(false) {
            effects := effects + [Put(ChangedConferenceSaved([]))];
            effects := effects + [Put(SetConference(conference))];
            effects := effects + [Put(UpdateCardState(ConferenceCard, true))];
            effects := effects + [Put(UpdateAutoactivatedState(ConferenceCard, true))];
          } else if Truthy(card.active) {
            if |saved| > 0 {
              var stillExists := SavedExists(conference.uids, slice.saved);
              effects := effects + [Put(ChangedConferenceSaved(stillExists))];
            }
            effects := effects + [Put(SetConference(conference))];
          }
        } else if Truthy(card.autoActivated) {
          effects := effects + [Put(UpdateCardState(ConferenceCard, false))];
          effects := effects + [Put(UpdateAutoactivatedState(ConferenceCard, false))];
        }
        assert effects == [Call(FetchConference)] + Puts(ConferenceActions(conference, saved, card, now));
      }
    }
    run := Run(effects, false);
  }

  // ---------------------------------------------------------------------------
  // The conference card's activation state machine

  /** The conference card flags, the saved list and the published conference
      as the store holds them. */
  datatype ConferenceView = ConferenceView(active: Value, autoActivated: Value, saved: seq<Id>, data: Option<Conference>)

  /** The view after the store has taken `action`: `UPDATE_CARD_STATE` and
      `UPDATE_AUTOACTIVATED_STATE` for the conference card set its `active` and
      `autoActivated` flags, `CHANGED_CONFERENCE_SAVED` replaces the saved list,
      `SET_CONFERENCE` replaces the published conference. */
  function ApplyOne(view: ConferenceView, action: Action): ConferenceView
  {
    match action
    case UpdateCardState(id, state) => if id == ConferenceCard then view.(active := Bool(state)) else view
    case UpdateAutoactivatedState(id, state) =>
      if id == ConferenceCard then view.(autoActivated := Bool(state)) else view
    case ChangedConferenceSaved(saved) => view.(saved := saved)
    case SetConference(conference) => view.(data := Some(conference))
    case _ => view
  }

  /** The view after the store has taken `actions`, in order. */
  function Apply(view: ConferenceView, actions: seq<Action>): ConferenceView
    decreases |actions|
  {
    if actions == [] then view else Apply(ApplyOne(view, actions[0]), actions[1..])
  }

  function ViewOf(card: CardFlags, saved: seq<Id>, data: Option<Conference>): ConferenceView
  {
    ConferenceView(card.active, card.autoActivated, saved, data)
  }

  function CardOf(view: ConferenceView): CardFlags
  {
    CardFlags(view.active, view.autoActivated)
  }

  /** The five transitions: cold start, reconcile, respect a manual disable,
      auto-deactivation, and leaving a manually re-enabled card alone. The
      fetched conference is published on a cold start and on a reconcile, and
      the published one is kept otherwise. */
  lemma {:induction false} ActivationTransitions(
    conference: Conference, saved: seq<Id>, card: CardFlags, now: int, data: Option<Conference>)
    ensures var after := Apply(ViewOf(card, saved, data), ConferenceActions(conference, saved, card, now));
      && (InWindow(conference, now) && card.autoActivated == Bool(false) ==>
            after == ConferenceView(Bool(true), Bool(true), [], Some(conference)))
      && (InWindow(conference, now) && card.autoActivated != Bool(false) && Truthy(card.active) ==>
            after == ViewOf(card, Filter(saved, ListedIn(conference.uids)), Some(conference)))
      && (InWindow(conference, now) && card.autoActivated != Bool(false) && !Truthy(card.active) ==>
            ConferenceActions(conference, saved, card, now) == [])
      && (!InWindow(conference, now) && Truthy(card.autoActivated) ==>
            after == ConferenceView(Bool(false), Bool(false), saved, data))
      && (!InWindow(conference, now) && !Truthy(card.autoActivated) ==>
            ConferenceActions(conference, saved, card, now) == [])
  {
    var view := ViewOf(card, saved, data);
    var actions := ConferenceActions(conference, saved, card, now);
    if InWindow(conference, now) {
      if card.autoActivated == Bool(false) {
        var v1 := ApplyOne(view, actions[0]);
        var v2 := ApplyOne(v1, actions[1]);
        var v3 := ApplyOne(v2, actions[2]);
        var v4 := ApplyOne(v3, actions[3]);
        assert actions[1..][1..][1..][1..] == [];
        assert Apply(v4, actions[1..][1..][1..][1..]) == v4;
        assert Apply(v3, actions[1..][1..][1..]) == v4;
        assert Apply(v2, actions[1..][1..]) == v4;
        assert Apply(v1, actions[1..]) == v4;
      } else if Truthy(card.active) {
        var listed := StillListed(conference.uids, Array(saved));
        if |saved| > 0 {
          assert actions[1..][1..] == [];
          var v1 := ApplyOne(view, actions[0]);
          assert v1 == ViewOf(card, listed, data);
          assert Apply(v1, actions[1..]) == ApplyOne(v1, actions[1]);
        } else {
          assert saved == [] && Filter(saved, ListedIn(conference.uids)) == [];
          assert actions == [SetConference(conference)];
          assert Apply(view, actions) == Apply(ApplyOne(view, actions[0]), actions[1..]);
          assert actions[1..] == [];
        }
      }
    } else if Truthy(card.autoActivated) {
      var v1 := ApplyOne(view, actions[0]);
      assert actions[1..][1..] == [];
      assert Apply(v1, actions[1..]) == ApplyOne(v1, actions[1]);
    }
  }

  /** The fetched conference is dispatched exactly on a cold start and on a reconcile. */
  lemma ConferencePublishedWhenActive(conference: Conference, saved: seq<Id>, card: CardFlags, now: int)
    ensures SetConference(conference) in ConferenceActions(conference, saved, card, now) <==>
      InWindow(conference, now) && (card.autoActivated == Bool(false) || Truthy(card.active))
  {
    var actions := ConferenceActions(conference, saved, card, now);
    if InWindow(conference, now) && card.autoActivated == Bool(false) {
      assert actions[1] == SetConference(conference);
    } else if InWindow(conference, now) && Truthy(card.active) {
      assert actions[|actions| - 1] == SetConference(conference);
    }
  }

  /** The saga moves `active` only together with `autoActivated`, to the same value. */
  lemma FlagsMoveInLockstep(conference: Conference, saved: seq<Id>, card: CardFlags, now: int, data: Option<Conference>)
    ensures var after := Apply(ViewOf(card, saved, data), ConferenceActions(conference, saved, card, now));
      (after.active == card.active && after.autoActivated == card.autoActivated)
      || (after.active == after.autoActivated && after.active.Bool?)
  {
    ActivationTransitions(conference, saved, card, now, data);
  }

  /** The cold start happens once per window: after it, a later pass inside a
      window only reconciles the user's saved list against the new schedule
      and publishes the new conference. */
  lemma ColdStartOncePerWindow(
    first: Conference, saved: seq<Id>, card: CardFlags, now: int, data: Option<Conference>,
    second: Conference, savedLater: seq<Id>, later: int)
    requires InWindow(first, now) && card.autoActivated == Bool(false)
    requires InWindow(second, later)
    ensures var after := Apply(ViewOf(card, saved, data), ConferenceActions(first, saved, card, now));
      var card' := CardOf(after);
      Apply(ViewOf(card', savedLater, after.data), ConferenceActions(second, savedLater, card', later))
        == ConferenceView(Bool(true), Bool(true), Filter(savedLater, ListedIn(second.uids)), Some(second))
  {
    ActivationTransitions(first, saved, card, now, data);
    var after := Apply(ViewOf(card, saved, data), ConferenceActions(first, saved, card, now));
    var card' := CardOf(after);
    ActivationTransitions(second, savedLater, card', later, after.data);
  }

  /** Auto-deactivation happens once per window exit: a later pass outside a window dispatches nothing. */
  lemma DeactivationOncePerExit(
    first: Conference, saved: seq<Id>, card: CardFlags, now: int, data: Option<Conference>,
    second: Conference, later: int)
    requires !InWindow(first, now) && Truthy(card.autoActivated)
    requires !InWindow(second, later)
    ensures var card' := CardOf(Apply(ViewOf(card, saved, data), ConferenceActions(first, saved, card, now)));
      ConferenceActions(second, saved, card', later) == []
  {
    ActivationTransitions(first, saved, card, now, data);
  }

  // ---------------------------------------------------------------------------
  // updateSurveys

  function NotIn(known: seq<Id>): Id -> bool
  {
    id => id !in known
  }

  /** The loop of `updateSurveys`: for each remote id not yet known, call the
      detail service and publish the survey; an exception ends the walk. */
  function NewSurveys(remote: seq<Id>, known: seq<Id>, byId: Id -> Reply<Value>): Run
    decreases |remote|
  {
    if remote == [] then Run([], false)
    else if remote[0] in known then NewSurveys(remote[1..], known, byId)
    else
      match byId(remote[0])
      case Threw => Run([Call(FetchSurveyById(remote[0]))], true)
      case Returned(survey) =>
        var rest := NewSurveys(remote[1..], known, byId);
        Run([Call(FetchSurveyById(remote[0])), Put(SetSurvey(remote[0], survey))] + rest.effects, rest.threw)
  }

  function SurveysStep(known: seq<Id>, reply: Reply<MaybeArray<Id>>, byId: Id -> Reply<Value>): Run
  {
    match reply
    case Threw => Run([Call(FetchSurveyIds)], true)
    case Returned(NotArray) => Run([Call(FetchSurveyIds)], false)
    case Returned(Array(remote)) =>
      if |remote| > |known| then
        var fetched := NewSurveys(remote, known, byId);
        Run([Call(FetchSurveyIds)] + fetched.effects + (if fetched.threw then [] else [Put(SetSurveyIds(remote))]),
            fetched.threw)
      else Run([Call(FetchSurveyIds)], false)
  }

  /** Run `a`, then `b` unless `a` ended by an exception. */
  function Then(a: Run, b: Run): Run
  {
    if a.threw then a else Run(a.effects + b.effects, b.threw)
  }

  method UpdateSurveys(known: seq<Id>, reply: Reply<MaybeArray<Id>>, byId: Id -> Reply<Value>) returns (run: Run)
    ensures run == SurveysStep(known, reply, byId)
  {
    if reply.Threw? {
      return Run([Call(FetchSurveyIds)], true);
    }
    var surveyIds := reply.value;
    if surveyIds.Array? && |surveyIds.items| > |known| {
      var remote := surveyIds.items;
      var fetched: seq<Effect> := [];
      for i := 0 to |remote|
        invariant NewSurveys(remote, known, byId) == Then(Run(fetched, false), NewSurveys(remote[i..], known, byId))
      {
        var id := remote[i];
        assert remote[i..][0] == id && remote[i..][1..] == remote[i + 1..];
        if IndexOf(known, id) < 0 {
          var survey := byId(id);
          fetched := fetched + [Call(FetchSurveyById(id))];
          if survey.Threw? {
            return Run([Call(FetchSurveyIds)] + fetched, true);
          }
          fetched := fetched + [Put(SetSurvey(id, survey.value))];
        }
      }
      assert remote[|remote|..] == [];
      return Run([Call(FetchSurveyIds)] + fetched + [Put(SetSurveyIds(remote))], false);
    }
    return Run([Call(FetchSurveyIds)], false);
  }

  /** The actions among some effects, in order. */
  function Dispatched(effects: seq<Effect>): seq<Action>
  {
    if effects == [] then []
    else (if effects[0].Put? then [effects[0].action] else []) + Dispatched(effects[1..])
  }

  /** The services called among some effects, in order. */
  function Called(effects: seq<Effect>): seq<Service>
  {
    if effects == [] then []
    else (if effects[0].Call? then [effects[0].service] else []) + Called(effects[1..])
  }

  lemma {:induction false} DispatchedAppend(a: seq<Effect>, b: seq<Effect>)
    ensures Dispatched(a + b) == Dispatched(a) + Dispatched(b)
    ensures Called(a + b) == Called(a) + Called(b)
  {
    if a != [] {
      assert (a + b)[0] == a[0] && (a + b)[1..] == a[1..] + b;
      DispatchedAppend(a[1..], b);
    } else {
      assert a + b == b;
    }
  }

  function SurveyPuts(ids: seq<Id>, byId: Id -> Reply<Value>): seq<Action>
    requires forall i :: 0 <= i < |ids| ==> byId(ids[i]).Returned?
  {
    if ids == [] then [] else [SetSurvey(ids[0], byId(ids[0]).value)] + SurveyPuts(ids[1..], byId)
  }

  function DetailCalls(ids: seq<Id>): seq<Service>
  {
    if ids == [] then [] else [FetchSurveyById(ids[0])] + DetailCalls(ids[1..])
  }

  /** With no failing detail call, the walk fetches and publishes exactly the
      unknown remote ids, in remote order. */
  lemma {:induction false} NewSurveysFetchesUnknown(remote: seq<Id>, known: seq<Id>, byId: Id -> Reply<Value>)
    requires forall i :: 0 <= i < |remote| && remote[i] !in known ==> byId(remote[i]).Returned?
    ensures var run := NewSurveys(remote, known, byId);
      var unknown := Filter(remote, NotIn(known));
      && !run.threw
      && (forall i :: 0 <= i < |unknown| ==> byId(unknown[i]).Returned?)
      && Dispatched(run.effects) == SurveyPuts(unknown, byId)
      && Called(run.effects) == DetailCalls(unknown)
    decreases |remote|
  {
    if remote != [] {
      NewSurveysFetchesUnknown(remote[1..], known, byId);
      var unknown := Filter(remote, NotIn(known));
      var restUnknown := Filter(remote[1..], NotIn(known));
      var rest := NewSurveys(remote[1..], known, byId);
      forall i | 0 <= i < |unknown| ensures byId(unknown[i]).Returned? {
        FilterMembership(remote, NotIn(known), unknown[i]);
        var j :| 0 <= j < |remote| && remote[j] == unknown[i];
      }
      if remote[0] !in known {
        assert unknown == [remote[0]] + restUnknown;
        var head := [Call(FetchSurveyById(remote[0])), Put(SetSurvey(remote[0], byId(remote[0]).value))];
        assert NewSurveys(remote, known, byId) == Run(head + rest.effects, rest.threw);
        DispatchedAppend(head, rest.effects);
        assert head[1..][1..] == [];
        assert Dispatched(head) == [SetSurvey(remote[0], byId(remote[0]).value)];
        assert Called(head) == [FetchSurveyById(remote[0])];
        assert unknown[1..] == restUnknown;
      } else {
        assert unknown == restUnknown;
      }
    }
  }

  /** Survey discovery: only when the remote list is longer than the known one,
      one `SET_SURVEY` per unknown remote id in remote order, then exactly one
      `SET_SURVEY_IDS`; otherwise nothing is dispatched. */
  lemma SurveyDiscovery(known: seq<Id>, reply: Reply<MaybeArray<Id>>, byId: Id -> Reply<Value>)
    requires reply.Returned? && reply.value.Array? ==>
      forall i :: 0 <= i < |reply.value.items| && reply.value.items[i] !in known ==>
        byId(reply.value.items[i]).Returned?
    ensures var run := SurveysStep(known, reply, byId);
      && run.effects[0] == Call(FetchSurveyIds)
      && (run.threw <==> reply.Threw?)
      && (reply.Returned? && reply.value.Array? && |reply.value.items| > |known| ==>
            var remote := reply.value.items;
            var unknown := Filter(remote, NotIn(known));
            && (forall i :: 0 <= i < |unknown| ==> byId(unknown[i]).Returned?)
            && Dispatched(run.effects) == SurveyPuts(unknown, byId) + [SetSurveyIds(remote)]
            && Called(run.effects) == [FetchSurveyIds] + DetailCalls(unknown))
      && (!(reply.Returned? && reply.value.Array? && |reply.value.items| > |known|) ==>
            Dispatched(run.effects) == [])
  {
    var run := SurveysStep(known, reply, byId);
    if reply.Returned? && reply.value.Array? && |reply.value.items| > |known| {
      var remote := reply.value.items;
      NewSurveysFetchesUnknown(remote, known, byId);
      var fetched := NewSurveys(remote, known, byId);
      DispatchedAppend([Call(FetchSurveyIds)], fetched.effects);
      DispatchedAppend([Call(FetchSurveyIds)] + fetched.effects, [Put(SetSurveyIds(remote))]);
    } else {
      assert run.effects == [Call(FetchSurveyIds)];
    }
  }

  /** Every action among `effects` is a `SET_SURVEY`. */
  predicate OnlySurveyPuts(effects: seq<Effect>)
  {
    forall j :: 0 <= j < |effects| && effects[j].Put? ==> effects[j].action.SetSurvey?
  }

  /** The walk only ever dispatches `SET_SURVEY`: the id list is published by
      the step after it. */
  lemma {:induction false} NewSurveysPutsOnlySurveys(remote: seq<Id>, known: seq<Id>, byId: Id -> Reply<Value>)
    ensures OnlySurveyPuts(NewSurveys(remote, known, byId).effects)
    decreases |remote|
  {
    if remote != [] && remote[0] !in known && byId(remote[0]).Returned? {
      var rest := NewSurveys(remote[1..], known, byId).effects;
      NewSurveysPutsOnlySurveys(remote[1..], known, byId);
      var head := [Call(FetchSurveyById(remote[0])), Put(SetSurvey(remote[0], byId(remote[0]).value))];
      var effects := head + rest;
      assert NewSurveys(remote, known, byId).effects == effects;
      forall j | 0 <= j < |effects| && effects[j].Put? ensures effects[j].action.SetSurvey? {
        if j >= 2 {
          assert effects[j] == rest[j - 2];
        }
      }
    } else if remote != [] && remote[0] in known {
      NewSurveysPutsOnlySurveys(remote[1..], known, byId);
    }
  }

  /** When the detail call of some unknown remote id throws, the walk throws,
      and the last thing it did is a detail call that threw. */
  lemma {:induction false} NewSurveysStopsAtThrow(remote: seq<Id>, known: seq<Id>, byId: Id -> Reply<Value>, i: nat)
    requires i < |remote| && remote[i] !in known && byId(remote[i]).Threw?
    ensures var run := NewSurveys(remote, known, byId);
      && run.threw
      && |run.effects| > 0
      && var last := run.effects[|run.effects| - 1];
         && last.Call? && last.service.FetchSurveyById?
         && last.service.id in remote && last.service.id !in known && byId(last.service.id).Threw?
    decreases |remote|
  {
    if i > 0 && (remote[0] in known || byId(remote[0]).Returned?) {
      NewSurveysStopsAtThrow(remote[1..], known, byId, i - 1);
      var rest := NewSurveys(remote[1..], known, byId);
      if remote[0] !in known {
        var head := [Call(FetchSurveyById(remote[0])), Put(SetSurvey(remote[0], byId(remote[0]).value))];
        assert NewSurveys(remote, known, byId).effects == head + rest.effects;
      }
    }
  }

  /** A failing detail call ends the survey step: the step throws, the surveys
      already published stay, and `SET_SURVEY_IDS` is not dispatched. */
  lemma SurveyDetailFailure(known: seq<Id>, remote: seq<Id>, byId: Id -> Reply<Value>, i: nat)
    requires |remote| > |known|
    requires i < |remote| && remote[i] !in known && byId(remote[i]).Threw?
    ensures var run := SurveysStep(known, Returned(Array(remote)), byId);
      && run.threw
      && run.effects == [Call(FetchSurveyIds)] + NewSurveys(remote, known, byId).effects
      && Put(SetSurveyIds(remote)) !in run.effects
      && run.effects[|run.effects| - 1].Call?
  {
    var fetched := NewSurveys(remote, known, byId);
    NewSurveysStopsAtThrow(remote, known, byId, i);
    NewSurveysPutsOnlySurveys(remote, known, byId);
    var effects := [Call(FetchSurveyIds)] + fetched.effects;
    assert SurveysStep(known, Returned(Array(remote)), byId).effects == effects;
    forall j | 0 <= j < |effects| ensures effects[j] != Put(SetSurveyIds(remote)) {
      if j > 0 {
        assert effects[j] == fetched.effects[j - 1];
      }
    }
  }

  // ---------------------------------------------------------------------------
  // watchData: one cycle

  /** The seven steps, in the order the cycle calls them. */
  function Steps(store: Store, now: int, replies: Replies): (rs: seq<Run>)
    ensures |rs| == 7
  {
    [ DomainStep(Weather, store.weather, now, replies.weather),
      DomainStep(Surf, store.surf, now, replies.surf),
      ConferenceStep(store.conference, store.conferenceCard, now, replies.conference),
      DomainStep(Links, store.links, now, replies.links),
      DomainStep(Events, store.events, now, replies.events),
      DomainStep(News, store.news, now, replies.news),
      SurveysStep(store.knownSurveys, replies.surveyIds, replies.surveyById) ]
  }

  /** The steps run one after the other inside one `try`: an exception skips the rest. */
  function Chain(rs: seq<Run>): Run
  {
    if rs == [] then Run([], false) else Then(Chain(rs[..|rs| - 1]), rs[|rs| - 1])
  }

  /** The first `k` steps chained: what the `try` block has done after its `k`-th step. */
  function ChainTo(rs: seq<Run>, k: nat): Run
    requires k <= |rs|
  {
    if k == 0 then Run([], false) else Then(ChainTo(rs, k - 1), rs[k - 1])
  }

  lemma {:induction false} ChainToIsChain(rs: seq<Run>, k: nat)
    requires k <= |rs|
    ensures ChainTo(rs, k) == Chain(rs[..k])
  {
    if k > 0 {
      ChainToIsChain(rs, k - 1);
      assert rs[..k][..k - 1] == rs[..k - 1];
    }
  }

  /** All the effects of some runs, one run after the other. */
  function Flatten(rs: seq<Run>): seq<Effect>
  {
    if rs == [] then [] else Flatten(rs[..|rs| - 1]) + rs[|rs| - 1].effects
  }

  /** One cycle: the steps, `UPDATE_DINING` unless a step threw, and the pause. */
  function Cycle(store: Store, now: int, replies: Replies): seq<Effect>
  {
    var body := Chain(Steps(store, now, replies));
    body.effects + (if body.threw then [] else [Put(UpdateDining)]) + [Delay(CyclePause)]
  }

  method WatchDataOnce(store: Store, now: int, replies: Replies) returns (effects: seq<Effect>)
    ensures effects == Cycle(store, now, replies)
  {
    ghost var rs := Steps(store, now, replies);
    var done := Run([], false);
    var step := DomainStep(Weather, store.weather, now, replies.weather);
    done := Then(done, step);
    assert done == ChainTo(rs, 1);
    if !done.threw {
      step := DomainStep(Surf, store.surf, now, replies.surf);
      done := Then(done, step);
    }
    assert done == ChainTo(rs, 2);
    if !done.threw {
      step := UpdateConference(store.conference, store.conferenceCard, now, replies.conference);
      done := Then(done, step);
    }
    assert done == ChainTo(rs, 3);
    if !done.threw {
      step := DomainStep(Links, store.links, now, replies.links);
      done := Then(done, step);
    }
    assert done == ChainTo(rs, 4);
    if !done.threw {
      step := DomainStep(Events, store.events, now, replies.events);
      done := Then(done, step);
    }
    assert done == ChainTo(rs, 5);
    if !done.threw {
      step := DomainStep(News, store.news, now, replies.news);
      done := Then(done, step);
    }
    assert done == ChainTo(rs, 6);
    if !done.threw {
      step := UpdateSurveys(store.knownSurveys, replies.surveyIds, replies.surveyById);
      done := Then(done, step);
    }
    assert done == ChainTo(rs, 7);
    assert done == Chain(rs) by {
      ChainToIsChain(rs, 7);
      assert rs[..7] == rs;
    }
    effects := done.effects;
    if !done.threw {
      effects := effects + [Put(UpdateDining)];
    }
    effects := effects + [Delay(CyclePause)];
  }

  lemma {:induction false} ChainWithoutThrow(rs: seq<Run>)
    requires forall i :: 0 <= i < |rs| ==> !rs[i].threw
    ensures Chain(rs) == Run(Flatten(rs), false)
  {
    if rs != [] {
      ChainWithoutThrow(rs[..|rs| - 1]);
    }
  }

  lemma {:induction false} ChainStopsAtFirstThrow(rs: seq<Run>, k: nat)
    requires k < |rs| && rs[k].threw
    requires forall i :: 0 <= i < k ==> !rs[i].threw
    ensures Chain(rs) == Run(Flatten(rs[..k + 1]), true)
    decreases |rs|
  {
    if k + 1 == |rs| {
      assert rs[..k + 1] == rs;
      ChainWithoutThrow(rs[..k]);
      assert rs[..k + 1][..k] == rs[..k];
    } else {
      ChainStopsAtFirstThrow(rs[..|rs| - 1], k);
      assert rs[..|rs| - 1][..k + 1] == rs[..k + 1];
    }
  }

  /** A failure anywhere skips the rest of the cycle and `UPDATE_DINING`, but
      never the pause; without one, every step runs and dining is refreshed. */
  lemma CycleShape(store: Store, now: int, replies: Replies)
    ensures var rs := Steps(store, now, replies);
      var r := Cycle(store, now, replies);
      && r[|r| - 1] == Delay(CyclePause)
      && ((forall i :: 0 <= i < 7 ==> !rs[i].threw) ==>
            r == Flatten(rs) + [Put(UpdateDining), Delay(CyclePause)])
      && (forall k :: 0 <= k < 7 && rs[k].threw && (forall i :: 0 <= i < k ==> !rs[i].threw) ==>
            r == Flatten(rs[..k + 1]) + [Delay(CyclePause)])
  {
    var rs := Steps(store, now, replies);
    if forall i :: 0 <= i < 7 ==> !rs[i].threw {
      ChainWithoutThrow(rs);
    }
    forall k | 0 <= k < 7 && rs[k].threw && (forall i :: 0 <= i < k ==> !rs[i].threw)
      ensures Cycle(store, now, replies) == Flatten(rs[..k + 1]) + [Delay(CyclePause)]
    {
      ChainStopsAtFirstThrow(rs, k);
    }
  }

  /** The rank of a service in the cycle's fixed order. */
  function Rank(s: Service): nat
  {
    match s
    case FetchWeather => 0
    case FetchSurf => 1
    case FetchConference => 2
    case FetchQuicklinks => 3
    case FetchEvents => 4
    case FetchNews => 5
    case FetchSurveyIds => 6
    case FetchSurveyById(_) => 7
  }

  /** Every service call among `effects` has a rank between `lo` and `hi`. */
  predicate CallsWithin(effects: seq<Effect>, lo: nat, hi: nat)
  {
    forall i :: 0 <= i < |effects| && effects[i].Call? ==> lo <= Rank(effects[i].service) <= hi
  }

  /** The service calls among `effects` come in rank order. */
  predicate CallsOrdered(effects: seq<Effect>)
  {
    forall i, j :: 0 <= i < j < |effects| && effects[i].Call? && effects[j].Call? ==>
      Rank(effects[i].service) <= Rank(effects[j].service)
  }

  lemma OrderedConcat(a: seq<Effect>, b: seq<Effect>, m: nat, hi: nat)
    requires CallsOrdered(a) && CallsOrdered(b)
    requires CallsWithin(a, 0, m) && CallsWithin(b, m, hi) && m <= hi
    ensures CallsOrdered(a + b) && CallsWithin(a + b, 0, hi)
  {
    forall i, j | 0 <= i < j < |a + b| && (a + b)[i].Call? && (a + b)[j].Call?
      ensures Rank((a + b)[i].service) <= Rank((a + b)[j].service)
    {
      if j < |a| {
        assert (a + b)[i] == a[i] && (a + b)[j] == a[j];
      } else if i >= |a| {
        assert (a + b)[i] == b[i - |a|] && (a + b)[j] == b[j - |a|];
      } else {
        assert (a + b)[i] == a[i] && (a + b)[j] == b[j - |a|];
      }
    }
    forall i | 0 <= i < |a + b| && (a + b)[i].Call?
      ensures 0 <= Rank((a + b)[i].service) <= hi
    {
      if i < |a| {
        assert (a + b)[i] == a[i];
      } else {
        assert (a + b)[i] == b[i - |a|];
      }
    }
  }

  lemma {:induction false} NewSurveysCallsDetails(remote: seq<Id>, known: seq<Id>, byId: Id -> Reply<Value>)
    ensures CallsWithin(NewSurveys(remote, known, byId).effects, 7, 7)
    decreases |remote|
  {
    if remote != [] {
      NewSurveysCallsDetails(remote[1..], known, byId);
    }
  }

  /** The survey list call (rank 6) followed by survey detail calls only (rank 7). */
  lemma ListThenDetails(body: seq<Effect>)
    requires CallsWithin(body, 7, 7)
    ensures var effects := [Call(FetchSurveyIds)] + body;
      CallsOrdered(effects) && CallsWithin(effects, 6, 7)
  {
    var effects := [Call(FetchSurveyIds)] + body;
    forall i | 1 <= i < |effects| ensures effects[i] == body[i - 1] {
    }
  }

  lemma SurveysStepCalls(known: seq<Id>, reply: Reply<MaybeArray<Id>>, byId: Id -> Reply<Value>)
    ensures var effects := SurveysStep(known, reply, byId).effects;
      CallsOrdered(effects) && CallsWithin(effects, 6, 7)
  {
    if reply.Returned? && reply.value.Array? && |reply.value.items| > |known| {
      var remote := reply.value.items;
      var fetched := NewSurveys(remote, known, byId);
      var tail: seq<Effect> := if fetched.threw then [] else [Put(SetSurveyIds(remote))];
      assert CallsWithin(fetched.effects + tail, 7, 7) by {
        NewSurveysCallsDetails(remote, known, byId);
        OrderedConcat(fetched.effects, tail, 7, 7);
      }
      ListThenDetails(fetched.effects + tail);
      assert [Call(FetchSurveyIds)] + fetched.effects + tail == [Call(FetchSurveyIds)] + (fetched.effects + tail);
    }
  }

  lemma DomainStepCalls(d: Domain, entry: Cached, now: int, reply: Reply<Value>)
    ensures var effects := DomainStep(d, entry, now, reply).effects;
      var rank := Rank(Fetcher(d));
      CallsOrdered(effects) && CallsWithin(effects, rank, rank)
  {
  }

  lemma ConferenceStepCalls(slice: ConferenceSlice, card: CardFlags, now: int, reply: Reply<Option<Conference>>)
    ensures var effects := ConferenceStep(slice, card, now, reply).effects;
      CallsOrdered(effects) && CallsWithin(effects, 2, 2)
  {
  }

  /** Step `k` of the cycle only calls services of rank `k` (the survey step: 6, then 7). */
  lemma StepsCallInOrder(store: Store, now: int, replies: Replies)
    ensures var rs := Steps(store, now, replies);
      forall k :: 0 <= k < 7 ==>
        CallsOrdered(rs[k].effects) && CallsWithin(rs[k].effects, k, if k == 6 then 7 else k)
  {
    var rs := Steps(store, now, replies);
    forall k | 0 <= k < 7
      ensures CallsOrdered(rs[k].effects) && CallsWithin(rs[k].effects, k, if k == 6 then 7 else k)
    {
      if k == 0 {
        DomainStepCalls(Weather, store.weather, now, replies.weather);
      } else if k == 1 {
        DomainStepCalls(Surf, store.surf, now, replies.surf);
      } else if k == 2 {
        ConferenceStepCalls(store.conference, store.conferenceCard, now, replies.conference);
      } else if k == 3 {
        DomainStepCalls(Links, store.links, now, replies.links);
      } else if k == 4 {
        DomainStepCalls(Events, store.events, now, replies.events);
      } else if k == 5 {
        DomainStepCalls(News, store.news, now, replies.news);
      } else {
        SurveysStepCalls(store.knownSurveys, replies.surveyIds, replies.surveyById);
      }
    }
  }

  lemma {:induction false} ChainCallsOrdered(rs: seq<Run>)
    requires forall k :: 0 <= k < |rs| ==> CallsOrdered(rs[k].effects) && CallsWithin(rs[k].effects, k, k + 1)
    ensures CallsOrdered(Chain(rs).effects) && CallsWithin(Chain(rs).effects, 0, |rs|)
  {
    if rs != [] {
      var init := rs[..|rs| - 1];
      ChainCallsOrdered(init);
      if !Chain(init).threw {
        OrderedConcat(Chain(init).effects, rs[|rs| - 1].effects, |rs| - 1, |rs|);
      }
    }
  }

  /** The cycle calls the services in the fixed order weather, surf, conference,
      links, events, news, survey list, survey details. */
  lemma CycleCallsInOrder(store: Store, now: int, replies: Replies)
    ensures CallsOrdered(Cycle(store, now, replies))
  {
    var rs := Steps(store, now, replies);
    StepsCallInOrder(store, now, replies);
    ChainCallsOrdered(rs);
    var body := Chain(rs);
    var tail := (if body.threw then [] else [Put(UpdateDining)]) + [Delay(CyclePause)];
    OrderedConcat(body.effects, tail, 7, 7);
    assert Cycle(store, now, replies) == body.effects + tail;
  }

  lemma {:induction false} NotInChain(rs: seq<Run>, e: Effect)
    requires forall k :: 0 <= k < |rs| ==> e !in rs[k].effects
    ensures e !in Chain(rs).effects
  {
    if rs != [] {
      NotInChain(rs[..|rs| - 1], e);
    }
  }

  function StepOf(d: Domain): nat
  {
    match d
    case Weather => 0
    case Surf => 1
    case Links => 3
    case Events => 4
    case News => 5
  }

  function EntryOf(store: Store, d: Domain): Cached
  {
    match d
    case Weather => store.weather
    case Surf => store.surf
    case Links => store.links
    case Events => store.events
    case News => store.news
  }

  function ReplyOf(replies: Replies, d: Domain): Reply<Value>
  {
    match d
    case Weather => replies.weather
    case Surf => replies.surf
    case Links => replies.links
    case Events => replies.events
    case News => replies.news
  }

  lemma StepOfDomain(store: Store, now: int, replies: Replies, d: Domain)
    ensures Steps(store, now, replies)[StepOf(d)] == DomainStep(d, EntryOf(store, d), now, ReplyOf(replies, d))
    ensures Rank(Fetcher(d)) == StepOf(d)
  {
  }

  lemma CallOutsideRanks(effects: seq<Effect>, lo: nat, hi: nat, s: Service)
    requires CallsWithin(effects, lo, hi)
    requires Rank(s) < lo || hi < Rank(s)
    ensures Call(s) !in effects
  {
    forall i | 0 <= i < |effects| ensures effects[i] != Call(s) {
      if effects[i].Call? {
        assert lo <= Rank(effects[i].service) <= hi;
      }
    }
  }

  /** A domain whose cached entry is fresh and holds data is never fetched during the cycle. */
  lemma FreshDomainNotFetched(store: Store, now: int, replies: Replies, d: Domain)
    requires CacheFresh(EntryOf(store, d), TtlSeconds(d), now)
    ensures Call(Fetcher(d)) !in Cycle(store, now, replies)
  {
    var rs := Steps(store, now, replies);
    StepsCallInOrder(store, now, replies);
    StepOfDomain(store, now, replies, d);
    var e := Call(Fetcher(d));
    forall k | 0 <= k < 7 ensures e !in rs[k].effects {
      if k != StepOf(d) {
        CallOutsideRanks(rs[k].effects, k, if k == 6 then 7 else k, Fetcher(d));
      }
    }
    NotInChain(rs, e);
    var body := Chain(rs);
    assert Cycle(store, now, replies) == body.effects + ((if body.threw then [] else [Put(UpdateDining)]) + [Delay(CyclePause)]);
  }

  /** The conference is not fetched anywhere in the cycle while its data is at
      most the time-to-live old, the boundary included, or `saved` is not an array. */
  lemma ConferenceNotDueNotFetched(store: Store, now: int, replies: Replies)
    requires !ConferenceDue(store.conference, now)
    ensures Call(FetchConference) !in Cycle(store, now, replies)
  {
    var rs := Steps(store, now, replies);
    StepsCallInOrder(store, now, replies);
    var e := Call(FetchConference);
    forall k | 0 <= k < 7 ensures e !in rs[k].effects {
      if k != 2 {
        CallOutsideRanks(rs[k].effects, k, if k == 6 then 7 else k, FetchConference);
      }
    }
    NotInChain(rs, e);
    var body := Chain(rs);
    assert Cycle(store, now, replies) == body.effects + ((if body.threw then [] else [Put(UpdateDining)]) + [Delay(CyclePause)]);
  }

  /** The gate is strict: data exactly the time-to-live old is not refetched, one
      millisecond more is, provided `saved` is an array. */
  lemma ConferenceGateBoundary(slice: ConferenceSlice, card: CardFlags, reply: Reply<Option<Conference>>)
    ensures var ttl := Settings.ConferenceTtl * 1000;
      && ConferenceStep(slice, card, slice.lastUpdated + ttl, reply).effects == []
      && (slice.saved.Array? <==>
            ConferenceStep(slice, card, slice.lastUpdated + ttl + 1, reply).effects != [])
  {
  }

  // ---------------------------------------------------------------------------
  // prefetchLinkImages

  const IconPrefix: string := "fontawesome:"

  /** The first position at or after `from` where `sub` occurs in `s`, or -1.
      This agrees with JavaScript's `indexOf(sub, from)` for the one use below
      (`from` = 0, a non-empty `sub`); it departs from it for an empty `sub`
      with `from` past the end, where JavaScript answers `|s|`. */
  function IndexOfFrom(s: string, sub: string, from: nat): (r: int)
    decreases |s| - from
    ensures r == -1 || (from <= r && r + |sub| <= |s| && s[r..r + |sub|] == sub)
    ensures r != from <==> !(from + |sub| <= |s| && s[from..from + |sub|] == sub)
  {
    if from + |sub| > |s| then -1
    else if s[from..from + |sub|] == sub then from
    else IndexOfFrom(s, sub, from + 1)
  }

  /** An icon is prefetched as an image unless `indexOf('fontawesome:')` is 0. */
  predicate Prefetched(icon: string)
  {
    IndexOfFrom(icon, IconPrefix, 0) != 0
  }

  /** A link icon is prefetched if and only if it does not start with `fontawesome:`. */
  lemma PrefetchedIffNotIconName(icon: string)
    ensures Prefetched(icon) <==> !(IconPrefix <= icon)
  {
    if IconPrefix <= icon {
      assert icon[0..|IconPrefix|] == IconPrefix;
    }
  }

  function PrefetchedBy(icon: string): bool
  {
    Prefetched(icon)
  }

  /** The icons `prefetchLinkImages` passes to the image cache, in link order. */
  function PrefetchedIcons(icons: MaybeArray<string>): seq<string>
  {
    match icons
    case NotArray => []
    case Array(items) => Filter(items, PrefetchedBy)
  }

  lemma PrefetchedIconsAreUrls(icons: MaybeArray<string>)
    ensures forall icon :: icon in PrefetchedIcons(icons) <==>
      icons.Array? && icon in icons.items && !(IconPrefix <= icon)
  {
    forall icon
      ensures icon in PrefetchedIcons(icons) <==> icons.Array? && icon in icons.items && !(IconPrefix <= icon)
    {
      PrefetchedIffNotIconName(icon);
      if icons.Array? {
        FilterMembership(icons.items, PrefetchedBy, icon);
      }
    }
  }
}
