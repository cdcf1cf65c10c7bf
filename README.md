# PipeCD notification routing and `--wait-status` parsing, in Dafny

This project models two small pieces of decision logic of PipeCD.

**The piped notifier's route matcher.** A `NotificationRoute` holds eight string lists: an allow-list and a deny-list for each of four dimensions. The dimensions are the event type, the event group, the application ID and the environment ID. `newMatcher(route)` binds one route. `Match(event)` says whether the event is delivered through that route's channel. Match is the AND of the four dimensions, and every dimension follows the same rule (`Notifier.Dim`):

- a value the event does not carry passes;
- a value it does carry must be in the allow-list, unless that list is empty;
- and it must not be in the deny-list.

The event type is compared through its configuration token, which is the enum name without `EVENT_`. The group comes from an event-type-to-group mapping whose definition is not shown. The application and environment IDs come from the metadata variant, and only the deployment variant carries them. The matcher's implementation, `matcher.go`, is outside this model; the matcher is modelled from what its table-driven test asserts. `notifier_cases.dfy` proves each row of the table.

**`pipectl application sync`'s `--wait-status` flag.** `makeStatuses` prefixes each user string with `DEPLOYMENT_` and looks it up in the `DeploymentStatus` enum's name-to-value table. It stops at the first unknown string with the error `bad status <s>`; otherwise it returns the values in input order (`Application.MakeStatuses`, specified by `Application.Statuses`). `availableStatuses` lists every key of that table with the `DEPLOYMENT_` prefix trimmed, in the map's unspecified iteration order (`Application.AvailableStatuses`). The help text shows that list as the valid flag values. For every key that carries the `DEPLOYMENT_` prefix, the offered name is accepted back as that key's status (`Application.RoundTrip`); when every key carries it, so is the whole list (`Application.OfferedNamesAccepted`). A key without the prefix is offered under its own name, which is rejected unless the table also holds it with the prefix (`Application.UnprefixedNameRejected`).

Files:
- `wrappers.dfy`: Option and Result.
- `strings.dfy`: Go's `strings.HasPrefix` and `strings.TrimPrefix`.
- `notifier.dfy`: the matcher and its properties.
- `notifier_cases.dfy`: the test table as lemmas.
- `application.dfy`: the flag parsing.

Three facts about the matcher are worth stating on their own:
- The group mapping is a parameter `groupOf` of the matcher. The test pins down only two facts about it: `DEPLOYMENT_TRIGGERED` is in group `DEPLOYMENT`, and `APPLICATION_SYNCED` is not. The group test row assumes only those two facts (`Notifier.KnownGroups`).
- Two events of one type can get different results, because the application and environment dimensions read the metadata (`Notifier.SameTypeMayDiffer`). What decides the result is stated by `Notifier.MatchDependsOnlyOnKeys`.
- Adding the first entry to an empty allow-list can turn a match into a non-match, because an empty list means "no constraint" (`Notifier.DimAllowFromEmpty`). For a non-empty list, adding an entry never removes a match (`Notifier.MoreAllowancesMoreMatches`).

## Model

| member | source | states |
|---|---|---|
| `Notifier.EmptyRouteMatchesAll` | pkg/app/piped/notifier/matcher_test.go:33-38 | a route whose eight lists are all empty matches every event, the zero-value event included |
| `NotifierCases.EmptyConfigCase` | pkg/app/piped/notifier/matcher_test.go:33-38 | test row "empty config": the zero-value event of any type and a bare `DEPLOYMENT_TRIGGERED` event both match |
| `NotifierCases.TypeTokens` | pkg/app/piped/notifier/matcher_test.go:43-56 | the configuration token of each enum value the test uses is its name without `EVENT_` (`EVENT_DEPLOYMENT_TRIGGERED` has token `DEPLOYMENT_TRIGGERED`) |
| `Notifier.TypeToken` | pkg/app/piped/notifier/matcher_test.go:43-56 | every enum name is `EVENT_` followed by its configuration token |
| `NotifierCases.FilterByEventCase` | pkg/app/piped/notifier/matcher_test.go:40-58 | test row "filter by event": with `Events: [DEPLOYMENT_TRIGGERED]` and `IgnoreEvents: [DEPLOYMENT_ROLLING_BACK]`, a triggered event matches and a rolling-back event does not |
| `Notifier.IgnoredEventNeverMatches` | pkg/app/piped/notifier/matcher_test.go:46-47 | an event whose type token is in `IgnoreEvents` never matches, even when `Events` also lists it |
| `NotifierCases.FilterByGroupCase` | pkg/app/piped/notifier/matcher_test.go:59-77 | test row "filter by group": given only the two known group facts, with `Groups: [DEPLOYMENT]` a triggered event matches and an application-synced event does not |
| `Notifier.IgnoredGroupNeverMatches` | pkg/app/piped/notifier/matcher_test.go:65-67 | an event whose group is in `IgnoreGroups` never matches |
| `NotifierCases.FilterByAppCase` | pkg/app/piped/notifier/matcher_test.go:78-118 | test row "filter by app": app `canary` matches, `bluegreen` (on a `DEPLOYMENT_PLANNED` event carrying deployment-triggered metadata) does not, `not-specified` does not, and a piped-started event with no app ID matches |
| `Notifier.IgnoredAppNeverMatches` | pkg/app/piped/notifier/matcher_test.go:84-86 | an event whose metadata carries an application ID listed in `IgnoreApps` never matches |
| `NotifierCases.FilterByEnvCase` | pkg/app/piped/notifier/matcher_test.go:119-159 | test row "filter by env": `prod` matches, `dev` does not, `not-specified` does not, and a piped-started event with no env ID matches |
| `Notifier.IgnoredEnvNeverMatches` | pkg/app/piped/notifier/matcher_test.go:125-127 | an event whose metadata carries an environment ID listed in `IgnoreEnvs` never matches |
| `Notifier.AppIdOf` | pkg/app/piped/notifier/matcher_test.go:89-116 | metadata has an application ID exactly when it is the deployment variant, and the ID is that deployment's `ApplicationId` |
| `Notifier.EnvIdOf` | pkg/app/piped/notifier/matcher_test.go:130-157 | metadata has an environment ID exactly when it is the deployment variant, and the ID is that deployment's `EnvId` |
| `Notifier.ZeroEvent` | pkg/app/piped/notifier/matcher_test.go:36 | the zero-value event keeps its type and carries neither an application nor an environment ID |
| `Notifier.MatchIsConjunction` | pkg/app/piped/notifier/matcher_test.go:164-166 | the dimensions are independent: a route matches an event exactly when each of the four routes keeping only one dimension's lists matches it |
| `Notifier.AbsentScopeBypass` | pkg/app/piped/notifier/matcher_test.go:113-116 | an event without deployment metadata gets the same result as under the route with its app and env lists cleared, so those lists never filter it |
| `Notifier.MatchDependsOnlyOnKeys` | pkg/app/piped/notifier/matcher_test.go:97-104 | two events with the same type and the same extracted app and env IDs get the same result, whatever else their metadata says |
| `Notifier.SameTypeMayDiffer` | pkg/app/piped/notifier/matcher_test.go:89-104 | two `DEPLOYMENT_TRIGGERED` events can get different results under one route: the type alone does not decide a match |
| `Notifier.MoreDenialsFewerMatches` | pkg/app/piped/notifier/matcher_test.go:46-47 | adding a token to any of the four deny-lists never creates a match |
| `Notifier.MoreAllowancesMoreMatches` | pkg/app/piped/notifier/matcher_test.go:43-45 | adding a token to a non-empty allow-list never removes a match |
| `Notifier.DimAbsentPasses` | pkg/app/piped/notifier/matcher_test.go:113-116 | a dimension whose value the event does not carry passes for any allow-list and deny-list |
| `Notifier.DimEmptyPasses` | pkg/app/piped/notifier/matcher_test.go:33-38 | empty allow- and deny-lists pass every value |
| `Notifier.DimEmptyAllow` | pkg/app/piped/notifier/matcher_test.go:33-38 | with an empty allow-list, a present value passes exactly when it is not denied |
| `Notifier.DimDenyWins` | pkg/app/piped/notifier/matcher_test.go:97-104 | a denied value fails, whatever the allow-list holds |
| `Notifier.DimNotAllowed` | pkg/app/piped/notifier/matcher_test.go:105-112 | a present value missing from a non-empty allow-list fails, even when it is not denied |
| `Notifier.DimAllowGrows` | pkg/app/piped/notifier/matcher_test.go:81-83 | adding a token to a non-empty allow-list keeps every passing value passing |
| `Notifier.DimAllowFromEmpty` | pkg/app/piped/notifier/matcher_test.go:33-38 | adding the first token to an empty allow-list can make a passing value fail |
| `Notifier.DimDenyGrows` | pkg/app/piped/notifier/matcher_test.go:84-86 | adding a token to a deny-list never makes a failing value pass |
| `Strings.TrimPrefix` | pkg/app/pipectl/cmd/application/sync.go:111 | the result, given the prefix in front, is the original string; a string without the prefix is returned unchanged |
| `Strings.TrimPrependedPrefix` | pkg/app/pipectl/cmd/application/sync.go:99 | trimming a prefix that was just prepended gives back the string |
| `Strings.TrimPrefixInjective` | pkg/app/pipectl/cmd/application/sync.go:111 | two prefixed strings that trim to the same string are equal |
| `Application.Statuses` | pkg/app/pipectl/cmd/application/sync.go:96-106 | success exactly when every string names a table key once `DEPLOYMENT_` is prepended; then one status per string, in input order; otherwise the error `bad status s` for the first unknown `s`, all strings before it being known |
| `Application.MakeStatuses` | pkg/app/pipectl/cmd/application/sync.go:96-106 | the loop with its early return computes exactly `Statuses` |
| `Application.FirstUnknownShift` | pkg/app/pipectl/cmd/application/sync.go:98-102 | when the first string is known, the first unknown string of the rest is the first unknown string of the whole input |
| `Application.ErrorNamesFirstUnknown` | pkg/app/pipectl/cmd/application/sync.go:98-102 | the error always names the first unknown string in input order |
| `Application.StatusesOfNothing` | pkg/app/pipectl/cmd/application/sync.go:97-105 | an empty input gives an empty list and no error |
| `Application.StatusesAppend` | pkg/app/pipectl/cmd/application/sync.go:98-103 | validating `a + b` concatenates the two outputs, and an error in `a` is the one reported before any in `b` |
| `Application.DuplicatesKept` | pkg/app/pipectl/cmd/application/sync.go:98-103 | a known string repeated `n` times gives its status `n` times: duplicates are not removed |
| `Application.TrimmedNames` | pkg/app/pipectl/cmd/application/sync.go:110-111 | one name per key, in the keys' order, each being its key with `DEPLOYMENT_` trimmed |
| `Application.AvailableStatuses` | pkg/app/pipectl/cmd/application/sync.go:108-114 | as many names as the table has keys, and the names are the trimmed keys in some order that lists every key exactly once |
| `Application.RoundTrip` | pkg/app/pipectl/cmd/application/sync.go:52 | for every table key with the `DEPLOYMENT_` prefix, its trimmed name given to `makeStatuses` yields exactly that key's status |
| `Application.OfferedNamesAccepted` | pkg/app/pipectl/cmd/application/sync.go:52 | when every key has the prefix, passing the whole help list as `--wait-status` succeeds, giving each listed key's status in list order |
| `Application.OfferedNamesDistinct` | pkg/app/pipectl/cmd/application/sync.go:108-114 | when every key has the prefix, the help list repeats no name |
| `Application.UnprefixedNameRejected` | pkg/app/pipectl/cmd/application/sync.go:99-101 | a key without the `DEPLOYMENT_` prefix, offered under its own name, is rejected with `bad status` unless the table also holds that name with the prefix |
| `Application.UnprefixedKeyOfferedUnchanged` | pkg/app/pipectl/cmd/application/sync.go:111 | a key without the `DEPLOYMENT_` prefix appears in the list unchanged |

## Left out

- `pkg/app/piped/notifier/matcher.go` is not part of this model. The matcher is modelled from the assertions of `TestMatch` and the four-dimension rule. How it stores the lists internally (for example as sets) cannot change the result, so it is not modelled.
- The event-type-to-group mapping is not shown. It is the parameter `groupOf`, and only the two facts the test needs are assumed (`Notifier.KnownGroups`).
- The `EventType` and `DeploymentStatus` enums are generated code, not modelled. An event type is any enum name starting with `EVENT_` (`Notifier.EventName`), and the test's six values are constants. The status table is the parameter `StatusTable`.
- The zero value of `EventType` is generated code, not modelled, so the zero-value event is `Notifier.ZeroEvent(t)` for any `t`.
- The status table's values are `int32` in Go and `int` here. `makeStatuses` only converts them to the enum type, which does not change them.
- Metadata variants other than `EventDeploymentTriggered` and `EventPipedStarted` are outside this model, and so is a nil `Deployment` pointer inside deployment metadata. The model has those two variants plus nil metadata.
- The route's other fields (name, receiver) play no part in matching and are not modelled.
- `sync.run` is left out. It builds the client, triggers the deployment, waits for the statuses, logs its progress through the telemetry logger and wraps the `makeStatuses` error; all of that is network I/O, logging and code outside this model.
- `newSyncCommand` is left out: it sets the flag defaults and wires the cobra flags, CLI plumbing only.
- Go's map iteration order in `availableStatuses` is nondeterministic. The loop picks each next key arbitrarily, and its result is specified only up to that order.
- Concurrent use of one matcher is not modelled. Matching is a pure function, so concurrency cannot change its result.
