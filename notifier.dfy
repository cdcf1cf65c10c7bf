/** The notification route matcher of piped's notifier: decides whether one
    event is delivered through the channel that one route is attached to. */
module Notifier {
  import opened Wrappers
  import opened Strings

  const EventPrefix := "EVENT_"

  /** An enum name of `EventType`; every one of them starts with `EVENT_`. */
  type EventName = s: string | HasPrefix(s, EventPrefix) witness EventPrefix

  /** A value of the `EventType` enumeration, by its enum name
      (`EVENT_DEPLOYMENT_TRIGGERED`, `EVENT_PIPED_STARTED`, ...). */
  datatype EventType = EventType(name: EventName)

  const DeploymentTriggered := EventType(EventPrefix + "DEPLOYMENT_TRIGGERED")
  const DeploymentPlanned := EventType(EventPrefix + "DEPLOYMENT_PLANNED")
  const DeploymentRollingBack := EventType(EventPrefix + "DEPLOYMENT_ROLLING_BACK")
  const DeploymentSucceeded := EventType(EventPrefix + "DEPLOYMENT_SUCCEEDED")
  const ApplicationSynced := EventType(EventPrefix + "APPLICATION_SYNCED")
  const PipedStarted := EventType(EventPrefix + "PIPED_STARTED")

  /** The part of a deployment the matcher looks at. */
  datatype Deployment = Deployment(applicationId: string, envId: string)

  /** The event payload. Go holds it in an interface, so it may be nil
      (NoMetadata, as in the zero-value event); only the deployment variant
      carries an application and an environment. */
  datatype Metadata =
    | NoMetadata
    | DeploymentTriggeredMetadata(deployment: Deployment)
    | PipedStartedMetadata

  datatype Event = Event(eventType: EventType, metadata: Metadata)

  /** The zero-value event of a given type: no metadata at all. */
  function ZeroEvent(t: EventType): (e: Event)
    ensures e.eventType == t && AppIdOf(e.metadata).None? && EnvIdOf(e.metadata).None?
  {
    Event(t, NoMetadata)
  }

  /** One routing rule: an allow-list and a deny-list per dimension.
      An empty list places no constraint on its dimension. */
  datatype NotificationRoute = NotificationRoute(
    events: seq<string>, ignoreEvents: seq<string>,
    groups: seq<string>, ignoreGroups: seq<string>,
    apps: seq<string>, ignoreApps: seq<string>,
    envs: seq<string>, ignoreEnvs: seq<string>)

  const EmptyRoute := NotificationRoute([], [], [], [], [], [], [], [])

  /** The configuration token of an event type: its enum name without
      the `EVENT_` prefix, e.g. `DEPLOYMENT_TRIGGERED`. */
  function TypeToken(t: EventType): (token: string)
    ensures EventPrefix + token == t.name
  {
    TrimPrefix(t.name, EventPrefix)
  }

  /** The application identifier, when the metadata variant has one. */
  function AppIdOf(m: Metadata): (id: Option<string>)
    ensures id.Some? <==> m.DeploymentTriggeredMetadata?
    ensures id.Some? ==> id.value == m.deployment.applicationId
  {
    match m
    case DeploymentTriggeredMetadata(d) => Some(d.applicationId)
    case _ => None
  }

  /** The environment identifier, when the metadata variant has one. */
  function EnvIdOf(m: Metadata): (id: Option<string>)
    ensures id.Some? <==> m.DeploymentTriggeredMetadata?
    ensures id.Some? ==> id.value == m.deployment.envId
  {
    match m
    case DeploymentTriggeredMetadata(d) => Some(d.envId)
    case _ => None
  }

  /** One filter dimension: an absent value passes; a present value must be
      allowed (or the allow-list empty) and must not be denied. */
  predicate Dim(allow: seq<string>, deny: seq<string>, v: Option<string>) {
    match v
    case None => true
    case Some(x) => (|allow| == 0 || x in allow) && x !in deny
  }

  /** The facts about the event-type-to-group mapping the matcher relies on.
      The mapping itself is not shown, so it is a parameter here. */
  predicate KnownGroups(groupOf: EventType -> string) {
    && groupOf(DeploymentTriggered) == "DEPLOYMENT"
    && groupOf(ApplicationSynced) != "DEPLOYMENT"
  }

  /** `newMatcher(route)`: a matcher bound to one route, immutable once built.
      `groupOf` is the group of each event type, whose definition is not shown. */
  datatype Matcher = Matcher(route: NotificationRoute, groupOf: EventType -> string) {

    /** `Match(event)`: the conjunction of the four dimensions. */
    predicate Match(e: Event) {
      && Dim(route.events, route.ignoreEvents, Some(TypeToken(e.eventType)))
      && Dim(route.groups, route.ignoreGroups, Some(groupOf(e.eventType)))
      && Dim(route.apps, route.ignoreApps, AppIdOf(e.metadata))
      && Dim(route.envs, route.ignoreEnvs, EnvIdOf(e.metadata))
    }
  }

  // ---------------------------------------------------------------------
  // Properties of one dimension

  /** A missing field passes its dimension, whatever the lists say. */
  lemma DimAbsentPasses(allow: seq<string>, deny: seq<string>)
    ensures Dim(allow, deny, None)
  {
  }

  /** Empty lists place no constraint. */
  lemma DimEmptyPasses(v: Option<string>)
    ensures Dim([], [], v)
  {
  }

  /** With an empty allow-list, a present value passes exactly when it is not denied. */
  lemma DimEmptyAllow(deny: seq<string>, x: string)
    ensures Dim([], deny, Some(x)) <==> x !in deny
  {
  }

  /** Deny wins over allow. */
  lemma DimDenyWins(allow: seq<string>, deny: seq<string>, x: string)
    requires x in deny
    ensures !Dim(allow, deny, Some(x))
  {
  }

  /** A non-empty allow-list rejects a present value it does not name. */
  lemma DimNotAllowed(allow: seq<string>, deny: seq<string>, x: string)
    requires |allow| > 0 && x !in allow
    ensures !Dim(allow, deny, Some(x))
  {
  }

  /** Adding a token to a non-empty allow-list never turns a pass into a failure. */
  lemma DimAllowGrows(allow: seq<string>, deny: seq<string>, v: Option<string>, token: string)
    requires |allow| > 0
    ensures Dim(allow, deny, v) ==> Dim(allow + [token], deny, v)
  {
  }

  /** Adding the first token to an allow-list can turn a pass into a failure:
      the empty list meant "no constraint". */
  lemma DimAllowFromEmpty()
    ensures Dim([], [], Some("canary")) && !Dim(["bluegreen"], [], Some("canary"))
  {
  }

  /** Adding a token to a deny-list never turns a failure into a pass. */
  lemma DimDenyGrows(allow: seq<string>, deny: seq<string>, v: Option<string>, token: string)
    ensures Dim(allow, deny + [token], v) ==> Dim(allow, deny, v)
  {
  }

  // ---------------------------------------------------------------------
  // Properties of the matcher

  /** A route with every list empty matches every event, the zero-value one included. */
  lemma EmptyRouteMatchesAll(groupOf: EventType -> string, e: Event)
    ensures Matcher(EmptyRoute, groupOf).Match(e)
  {
  }

  /** The route that keeps only the lists of one dimension (0: event type,
      1: group, 2: application, 3: environment) and leaves the others empty. */
  function OnlyDimension(r: NotificationRoute, d: int): (r': NotificationRoute)
    requires 0 <= d < 4
  {
    if d == 0 then EmptyRoute.(events := r.events, ignoreEvents := r.ignoreEvents)
    else if d == 1 then EmptyRoute.(groups := r.groups, ignoreGroups := r.ignoreGroups)
    else if d == 2 then EmptyRoute.(apps := r.apps, ignoreApps := r.ignoreApps)
    else EmptyRoute.(envs := r.envs, ignoreEnvs := r.ignoreEnvs)
  }

  /** The dimensions are independent: a route matches an event exactly when
      each of its four single-dimension routes does. */
  lemma MatchIsConjunction(m: Matcher, e: Event)
    ensures m.Match(e) <==>
      && Matcher(OnlyDimension(m.route, 0), m.groupOf).Match(e)
      && Matcher(OnlyDimension(m.route, 1), m.groupOf).Match(e)
      && Matcher(OnlyDimension(m.route, 2), m.groupOf).Match(e)
      && Matcher(OnlyDimension(m.route, 3), m.groupOf).Match(e)
  {
  }

  /** An event whose type token is ignored never matches, even when it is also listed in `events`. */
  lemma IgnoredEventNeverMatches(m: Matcher, e: Event)
    requires TypeToken(e.eventType) in m.route.ignoreEvents
    ensures !m.Match(e)
  {
  }

  /** An event whose group is ignored never matches. */
  lemma IgnoredGroupNeverMatches(m: Matcher, e: Event)
    requires m.groupOf(e.eventType) in m.route.ignoreGroups
    ensures !m.Match(e)
  {
  }

  /** A deployment event whose application is ignored never matches. */
  lemma IgnoredAppNeverMatches(m: Matcher, e: Event)
    requires AppIdOf(e.metadata).Some? && AppIdOf(e.metadata).value in m.route.ignoreApps
    ensures !m.Match(e)
  {
  }

  /** A deployment event whose environment is ignored never matches. */
  lemma IgnoredEnvNeverMatches(m: Matcher, e: Event)
    requires EnvIdOf(e.metadata).Some? && EnvIdOf(e.metadata).value in m.route.ignoreEnvs
    ensures !m.Match(e)
  {
  }

  /** The route with its application and environment lists cleared. */
  function WithoutScope(r: NotificationRoute): NotificationRoute
  {
    r.(apps := [], ignoreApps := [], envs := [], ignoreEnvs := [])
  }

  /** An event whose metadata has no application or environment is judged as
      if the route had no application or environment lists at all. */
  lemma AbsentScopeBypass(m: Matcher, e: Event)
    requires !e.metadata.DeploymentTriggeredMetadata?
    ensures m.Match(e) == Matcher(WithoutScope(m.route), m.groupOf).Match(e)
  {
  }

  /** What decides a match: the type, the group, and the application and
      environment the metadata variant carries, and nothing else. */
  lemma MatchDependsOnlyOnKeys(m: Matcher, e1: Event, e2: Event)
    requires e1.eventType == e2.eventType
    requires AppIdOf(e1.metadata) == AppIdOf(e2.metadata)
    requires EnvIdOf(e1.metadata) == EnvIdOf(e2.metadata)
    ensures m.Match(e1) == m.Match(e2)
  {
  }

  /** The event type alone does not decide a match: two events of one type
      can differ in the application their metadata carries. */
  lemma SameTypeMayDiffer(groupOf: EventType -> string)
    ensures
      var m := Matcher(EmptyRoute.(apps := ["canary"]), groupOf);
      var d := Deployment("canary", "");
      && m.Match(Event(DeploymentTriggered, DeploymentTriggeredMetadata(d)))
      && !m.Match(Event(DeploymentTriggered, DeploymentTriggeredMetadata(d.(applicationId := "bluegreen"))))
  {
  }

  /** Adding a token to any deny-list of a route never adds a match. */
  lemma MoreDenialsFewerMatches(m: Matcher, e: Event, token: string)
    ensures Matcher(m.route.(ignoreEvents := m.route.ignoreEvents + [token]), m.groupOf).Match(e) ==> m.Match(e)
    ensures Matcher(m.route.(ignoreGroups := m.route.ignoreGroups + [token]), m.groupOf).Match(e) ==> m.Match(e)
    ensures Matcher(m.route.(ignoreApps := m.route.ignoreApps + [token]), m.groupOf).Match(e) ==> m.Match(e)
    ensures Matcher(m.route.(ignoreEnvs := m.route.ignoreEnvs + [token]), m.groupOf).Match(e) ==> m.Match(e)
  {
  }

  /** Adding a token to a non-empty allow-list of a route never removes a match. */
  lemma MoreAllowancesMoreMatches(m: Matcher, e: Event, token: string)
    ensures |m.route.events| > 0 && m.Match(e) ==> Matcher(m.route.(events := m.route.events + [token]), m.groupOf).Match(e)
    ensures |m.route.groups| > 0 && m.Match(e) ==> Matcher(m.route.(groups := m.route.groups + [token]), m.groupOf).Match(e)
    ensures |m.route.apps| > 0 && m.Match(e) ==> Matcher(m.route.(apps := m.route.apps + [token]), m.groupOf).Match(e)
    ensures |m.route.envs| > 0 && m.Match(e) ==> Matcher(m.route.(envs := m.route.envs + [token]), m.groupOf).Match(e)
  {
  }
}
