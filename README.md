# pm2-restart-hook, modelled in Dafny

pm2-restart-hook listens to the PM2 process supervisor's `process:event`
bus. When a "parent" application comes back up after a restart, it restarts
every application that names that parent in its environment under the
dependency tag key (by default `PM2_PARENT_APP`). The restarts go one at a
time, with a pause between them when there is more than one dependent.

The model covers the handler `handleProcessEvent` and the three
configuration values it reads at start-up:

- `js.dfy` (module `Js`): the JavaScript semantics the handler relies on.
  These are property lookup (a missing key reads as `undefined`), truthiness
  and strict equality (`NaN` equals nothing; objects compare by identity).
- `config.dfy` (module `Config`): the tag key, the ignore-manual flag and the
  restart delay, with their defaults.
- `classifier.dfy` (module `Classifier`): the three early returns that decide
  whether a packet is a parent restart. The event's process object is a
  property map, so a tag key that collides with `status` or `name` behaves
  as it does in the source.
- `discovery.dfy` (module `Discovery`): the filter over the supervisor's
  process list. It reads the tag from `app.pm2_env`, which is a different
  field from the one the classifier reads.
- `cascade.dfy` (module `Cascade`): the restart loop. It is a method with a
  `while` loop that records every external call in a trace of actions
  (`ListProcesses`, `Restart(pm_id)`, `Delay(ms)`). It is proved equal to a
  specification function, and lemmas about that function cover ids, order,
  pauses and abort.
- `handler.dfy` (module `Handler`): the whole handler. It is proved to issue
  exactly the trace of `EventTrace` and to report how it ended.

The supervisor is an input to the model. The list call's result is
`Option<seq<App>>` (`None` when the call rejects). The restart calls are
described by `failAt`, the index of the first restart call that rejects, or
`None`. Nothing after that call matters, because the single try/catch ends
the cascade there.

Three behaviours of the code that are easy to misread:

- Pauses: with K > 1 dependents the loop pauses K times, after the last
  restart too, because index.js:57-59 has no "not last" guard.
  `Cascade.CascadeCompletes` proves that the last action of a successful
  paced cascade is a pause. `Handler.ApiScenario` shows the resulting trace
  for two workers.
- Failures: one catch covers the list call and the whole loop
  (index.js:35-63), so the first failure abandons the rest of the
  dependents. `Cascade.CascadeAborts` and `Handler.FailedRestartStopsCascade`
  state this.
- The child check tests whether `processFromEvent[key]` is truthy
  (index.js:24). So a tag set to `""`, `0`, `false`, `null` or `NaN` does
  not mark a child, and a tag key of `status` suppresses every cascade
  (`Classifier.StatusAsTagKeyDisablesCascades`).

## Model

| member | source | states |
|---|---|---|
| `Config.TagKey` | index.js:4 | the tag key is the variable's value when that is set and non-empty, otherwise `"PM2_PARENT_APP"`; it is never empty |
| `Config.IgnoreManual` | index.js:5 | ignore-manual is on only when the variable is set to `"true"`; it is off when the variable is unset |
| `Config.IgnoreManualOnlyForExactTrue` | index.js:5 | ignore-manual is on exactly for the string `"true"`; unset, `"TRUE"`, `"True"`, `"1"`, `"yes"` and `" true"` leave it off |
| `Config.RestartDelayMs` | index.js:6-7 | the delay is the parsed integer unless parsing gave NaN or 0, in which case it is 200; negative values are kept; the result is never 0 |
| `Config.DefaultSettings` | index.js:4-7 | with nothing configured: tag key `"PM2_PARENT_APP"`, manual restarts cascade, 200 ms delay |
| `Config.LoadSettings` | index.js:4-7 | the loaded settings never have an empty tag key or a zero delay, and ignore-manual is on only for `"true"` |
| `Classifier.Classify` | index.js:18-31 | an accepted packet's parent (and the name in a manual-ignore verdict) is the `name` of the event's own process object |
| `Classifier.TaggedProcessNeverTriggers` | index.js:24 | a truthy tag on the event's process object means the packet is dropped, whatever its event, status or manual flag |
| `Classifier.OnlyOnlineLaunchingTriggers` | index.js:26 | only `event == "online"` with `status == "launching"` is accepted; every other combination is dropped |
| `Classifier.ManualFlagDecides` | index.js:28-31 | a manual event that passes the first two checks is dropped with ignore-manual on and accepted with it off |
| `Classifier.AutomaticRestartIgnoresFlag` | index.js:28 | for a non-manual packet the ignore-manual setting makes no difference |
| `Classifier.TriggerCharacterization` | index.js:24-31 | both directions: a packet is accepted exactly when the tag is falsy, the event is online, the status is launching and it is not (manual and ignore-manual on) |
| `Classifier.StatusAsTagKeyDisablesCascades` | index.js:20-26 | with tag key `status`, no packet is ever accepted, because a launching status is itself a truthy tag |
| `Discovery.ChildApps` | index.js:36-41 | every discovered app is in the list, has `pm2_env`, carries a tag strictly equal to the parent's name and has a name not strictly equal to it; there are no more dependents than apps |
| `Discovery.IsChildOf` | index.js:37-40 | a child has `pm2_env`, its tag equals the parent's name and its own name does not; the tag is actually present unless the parent's name is `undefined`; a parent named NaN has no children |
| `Discovery.ChildAppsMembership` | index.js:36-41 | both directions: an app is discovered exactly when it is in the list and meets the filter's predicate; no dependent has the parent's name or lacks `pm2_env` |
| `Discovery.ChildAppsIsSubsequence` | index.js:36-41 | the dependents keep the supervisor's list order: they form a subsequence of the list |
| `Discovery.ChildAppsIsGreatest` | index.js:36-41 | every subsequence of the list made only of dependents is a subsequence of the discovered list, so no dependent is dropped |
| `Discovery.ChildAppsUnique` | index.js:36-41 | the discovered list is the only subsequence of dependents that is at least as long as itself |
| `Cascade.RestartStepsProjections` | index.js:51-60 | the loop's turns restart each dependent's `pm_id` once, in order; when paced there is one pause of the configured length per dependent, otherwise none |
| `Cascade.PacedLayout` | index.js:55-59 | when paced, action 2j restarts dependent j and action 2j+1 is a pause of the configured length, for the last dependent too |
| `Cascade.UnpacedLayout` | index.js:55-57 | when not paced, action j restarts dependent j and there is no pause |
| `Cascade.CascadeCompletes` | index.js:43-60 | if no restart fails: the restarted ids are the dependents' `pm_id`s in list order; K pauses of the delay for K > 1 dependents and none for 0 or 1; no action at all for no dependents; the last action of a paced cascade is a pause |
| `Cascade.CascadeAborts` | index.js:55-63 | if restart i fails: exactly dependents 0..i were restarted, the failed restart is the last action (no pause after it), and i pauses were taken if paced |
| `Cascade.CascadeTrace` | index.js:51-63 | a cascade issues only restarts and pauses, at most two actions per dependent; it is empty exactly when there are no dependents, and otherwise starts by restarting the first one |
| `Cascade.RunCascade` | index.js:51-63 | the loop issues exactly `CascadeTrace` and reports an abort exactly when a restart call within range fails |
| `Handler.EventTrace` | index.js:17-64 | an invocation makes an external call exactly when the packet is accepted; the list call then comes first, and every later action is a restart or a pause |
| `Handler.HandleProcessEvent` | index.js:17-64 | the handler issues exactly `EventTrace`; its outcome is Ignored (with the classifier's verdict) exactly for a rejected packet, ListFailed exactly when the list call rejects, NoChildren exactly when no dependent is found, and RestartFailed (naming the failed `pm_id`) exactly when a restart call rejects |
| `Handler.ChildEventsAreInert` | index.js:24 | a packet whose process has a truthy tag causes no list call and no restart |
| `Handler.NonLaunchEventsAreInert` | index.js:26 | a packet that is not online/launching causes no list call and no restart |
| `Handler.ManualRestartDiscovery` | index.js:28-36 | a manual parent restart makes no list call with ignore-manual on, and starts with the list call with it off |
| `Handler.ListCallOnlyFirst` | index.js:35-41 | there is a list call exactly when the packet is accepted, and it is only ever the first action |
| `Handler.ListFailureRestartsNothing` | index.js:35-36 | when the list call rejects, the only action is that call: nothing is restarted and no pause is taken |
| `Handler.NoDependentsNoRestarts` | index.js:43-45 | with no dependent in the list, the list call is the only action |
| `Handler.LeadingListCall` | index.js:36 | the list call before the cascade restarts nothing and pauses for nothing |
| `Handler.SuccessfulCascade` | index.js:36-60 | when every call succeeds, the restarted ids are the dependents' ids in list order, and there are K pauses for K > 1 dependents and none for fewer |
| `Handler.FailedRestartStopsCascade` | index.js:51-63 | when restart call i fails, only dependents 0..i are restarted, that failed restart is the invocation's last action (no pause follows it), and i pauses of the configured length were taken if paced, none otherwise; that the handler then returns normally with the failed id is stated by `Handler.HandleProcessEvent`'s RestartFailed outcome |
| `Handler.ApiScenarioDependents` | index.js:36-41 | for the process list {api (untagged), worker1→api, worker2→api, other→unrelated}, the dependents are exactly [worker1, worker2] |
| `Handler.ApiScenario` | index.js:17-64 | an automatic restart of "api" with that list issues exactly: list, restart worker1, pause 200, restart worker2, pause 200 |

## Left out

- Connecting to PM2, launching the bus, `process.exit(2)` on a failed connection and subscribing the handler (index.js:66-81): I/O against the external supervisor.
- The `util.promisify` wrappers around `pm2.list` and `pm2.restart` (index.js:9-10): these calls are inputs (`listed`, `failAt`), not code.
- Real timing (index.js:11): a pause is only a trace entry with its duration. What `setTimeout` does with a negative or huge delay is not modelled.
- Console logging (index.js:13-15, 29, 33, 47-54, 62): observability only. A logged error shows up as the handler's `Outcome`.
- Concurrent handler invocations interleaving their restarts: the model is one sequential invocation.
- `parseInt` itself: its result is an input (`Option<int>`, `None` for NaN).
- Supervisor state across invocations: the restart oracle describes one invocation. Failures that depend on supervisor state carried across invocations are not modelled, and neither is a restart that changes a later list call.
- JavaScript numbers are modelled as integers plus NaN. Fractional values, Infinity and the difference between 0 and -0 are not modelled. -0 is falsy either way.
- Property lookup sees only an object's own properties. A tag key that names an inherited member (`toString`, `constructor`) would read a truthy function in the source; that case is not modelled.
- A packet without a `process` object throws a TypeError outside the try/catch (index.js:20). A `null` or `undefined` list entry throws inside the filter (index.js:38) and is caught, so nothing is restarted. A primitive entry reads `pm2_env` as `undefined` and is simply filtered out. Neither kind of entry is modelled, and neither is a truthy `pm2_env` that is not an object. In the model, packets always carry a process object, and list entries are objects whose `pm2_env` is absent or an object.
