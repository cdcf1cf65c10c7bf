/** The rows of the matcher's test table, one lemma per test case. */
module NotifierCases {
  import opened Wrappers
  import opened Strings
  import opened Notifier

  /** The configuration tokens of the event types the table uses. */
  lemma TypeTokens()
    ensures TypeToken(DeploymentTriggered) == "DEPLOYMENT_TRIGGERED"
    ensures TypeToken(DeploymentPlanned) == "DEPLOYMENT_PLANNED"
    ensures TypeToken(DeploymentRollingBack) == "DEPLOYMENT_ROLLING_BACK"
    ensures TypeToken(DeploymentSucceeded) == "DEPLOYMENT_SUCCEEDED"
    ensures TypeToken(ApplicationSynced) == "APPLICATION_SYNCED"
    ensures TypeToken(PipedStarted) == "PIPED_STARTED"
  {
    TrimPrependedPrefix(EventPrefix, "DEPLOYMENT_TRIGGERED");
    TrimPrependedPrefix(EventPrefix, "DEPLOYMENT_PLANNED");
    TrimPrependedPrefix(EventPrefix, "DEPLOYMENT_ROLLING_BACK");
    TrimPrependedPrefix(EventPrefix, "DEPLOYMENT_SUCCEEDED");
    TrimPrependedPrefix(EventPrefix, "APPLICATION_SYNCED");
    TrimPrependedPrefix(EventPrefix, "PIPED_STARTED");
  }

  function DeploymentEvent(t: EventType, appId: string, envId: string): (e: Event)
    ensures e.eventType == t
    ensures AppIdOf(e.metadata) == Some(appId) && EnvIdOf(e.metadata) == Some(envId)
  {
    Event(t, DeploymentTriggeredMetadata(Deployment(appId, envId)))
  }

  /** "empty config": the zero-value event and a typed event both match. */
  lemma EmptyConfigCase(groupOf: EventType -> string, zeroType: EventType)
    ensures Matcher(EmptyRoute, groupOf).Match(ZeroEvent(zeroType))
    ensures Matcher(EmptyRoute, groupOf).Match(Event(DeploymentTriggered, NoMetadata))
  {
  }

  /** "filter by event". */
  lemma FilterByEventCase(groupOf: EventType -> string)
    ensures
      var m := Matcher(EmptyRoute.(events := ["DEPLOYMENT_TRIGGERED"],
                                   ignoreEvents := ["DEPLOYMENT_ROLLING_BACK"]), groupOf);
      && m.Match(Event(DeploymentTriggered, NoMetadata))
      && !m.Match(Event(DeploymentRollingBack, NoMetadata))
  {
  }

  /** "filter by group". */
  lemma FilterByGroupCase(groupOf: EventType -> string)
    requires KnownGroups(groupOf)
    ensures
      var m := Matcher(EmptyRoute.(groups := ["DEPLOYMENT"], ignoreGroups := ["APPLICATION"]), groupOf);
      && m.Match(Event(DeploymentTriggered, NoMetadata))
      && !m.Match(Event(ApplicationSynced, NoMetadata))
  {
  }

  /** "filter by app": the application comes from the metadata variant,
      whatever the event type; an event without one passes. */
  lemma FilterByAppCase(groupOf: EventType -> string)
    ensures
      var m := Matcher(EmptyRoute.(apps := ["canary"], ignoreApps := ["bluegreen"]), groupOf);
      && m.Match(DeploymentEvent(DeploymentTriggered, "canary", ""))
      && !m.Match(DeploymentEvent(DeploymentPlanned, "bluegreen", ""))
      && !m.Match(DeploymentEvent(DeploymentSucceeded, "not-specified", ""))
      && m.Match(Event(PipedStarted, PipedStartedMetadata))
  {
  }

  /** "filter by env", the mirror image of "filter by app". */
  lemma FilterByEnvCase(groupOf: EventType -> string)
    ensures
      var m := Matcher(EmptyRoute.(envs := ["prod"], ignoreEnvs := ["dev"]), groupOf);
      && m.Match(DeploymentEvent(DeploymentTriggered, "", "prod"))
      && !m.Match(DeploymentEvent(DeploymentPlanned, "", "dev"))
      && !m.Match(DeploymentEvent(DeploymentSucceeded, "", "not-specified"))
      && m.Match(Event(PipedStarted, PipedStartedMetadata))
  {
  }
}
