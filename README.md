# Apache Brooklyn application resource — a verified model

This project models the core of a Terraform provider for Apache Brooklyn. It
covers three pieces:

- the **resource adapter**: the Create, Read, Update and Delete callbacks that
  the host resource framework calls for one declared `brooklyn_application`;
- the **application lifecycle controller**: an `Application` object that
  renders a YAML deployment document and deploys it, renames and expunges the
  application, and maps the service's status strings onto a closed set of
  states;
- the **wait primitive**: a bounded polling loop that the controller uses to
  wait for an application to reach `Starting` and then `Running`.

The remote Brooklyn service is given by its answers. The client is a class
with a constant `answer: nat -> Result<string>`: request number `n`, counted
from 0, gets `answer(n)`. The client also has a mutable `log` of the requests
it has sent. A probe of the polling loop is a function of the attempt number.
Quantifying over these functions covers every possible behaviour of the
service. Real sleeping becomes `Sleep(seconds)` events in a trace that the
loop returns.

Modules:

- `Errors` (`errors.dfy`): the error values (`RetriesExceeded(n)`, the named
  `NotStarting` error, a remote failure), Go's `error` result as `Outcome`,
  Go's `(T, error)` pair as `Result<T>`, and the text each error prints.
- `Wait` (`wait.dfy`): the polling loop as a method. It is proved against the
  closed form `Run`: run to the first attempt that fails or stops, or through
  the whole budget. The module also has the tally `Tallied` (result and
  number of probe calls) and the loop's properties.
- `Remote` (`remote.dfy`): the requests the controller sends, and the client.
- `ApplicationController` (`controller.dfy`): states, status mapping, the
  document renderer, the `Application` class and the properties of its waits.
- `Resource` (`resource.dfy`): the resource record, the type string, the
  configuration map, and the four callbacks with the properties of create.
  `AwaitStartedAndRunning` is the waiting block of create
  (`brooklyn/resource_application.go:82-94`) as a method of its own; the
  source keeps it inline.

Two behaviours of the code are worth stating outright:

- The loop (`brooklyn/utils/utils.go:10-19`) sleeps after every attempt that
  neither failed nor stopped, the last one included: a wait that exhausts its
  budget sleeps once more before returning the retry error.
  `Wait.ExhaustsBudget` states this: the trace of an exhausted budget ends
  with a sleep.
- The starting-timeout error's text says "(10)", but the starting wait makes
  20 attempts. The text is kept as written, and
  `ApplicationController.NotStartingMisstatesBudget` shows the mismatch.

## Model

| member | source | states |
|---|---|---|
| Wait.FirstSettle | brooklyn/utils/utils.go:10-17 | the loop's stopping point lies within the budget, and when it lies before the budget's end the probe failed or stopped there |
| Wait.FirstSettleIsFirst | brooklyn/utils/utils.go:10-17 | no attempt before the stopping point failed or stopped, so the loop went on past each of them |
| Wait.WaitForSpecificOrError | brooklyn/utils/utils.go:9-21 | the loop's error and its probe/sleep trace are exactly `Run`: it returns the first probe error, returns nil on the first stop, sleeps after every other attempt, and returns the retry error naming the budget once the budget is spent |
| Wait.WaitForSpecific | brooklyn/utils/utils.go:24-28 | wrapping a boolean probe: the result is nil exactly when some attempt within the budget holds, and any failure is the retry error naming the budget |
| Wait.WaitFor | brooklyn/utils/utils.go:31-33 | the same, with a budget of 60 attempts 3 seconds apart |
| Wait.SettlesOnAttempt | brooklyn/utils/utils.go:10-18 | if attempt k is the first to fail or stop, the probe is called k times, the loop sleeps k-1 times, and it returns that attempt's error (nil on a stop) |
| Wait.ExhaustsBudget | brooklyn/utils/utils.go:10-20 | if no attempt fails or stops, the probe is called max(budget,0) times with a sleep after each one, the trace ends with a sleep, and the retry error names the budget |
| Wait.SleepsFollowIdleAttempts | brooklyn/utils/utils.go:15-18 | the number of sleeps equals the number of calls that neither failed nor stopped |
| Wait.TallyFromFirstSettle | brooklyn/utils/utils.go:10-20 | the recursive tally is the stopping attempt's error after that many calls, or the retry error after the whole budget |
| Wait.RunTally | brooklyn/utils/utils.go:9-21 | the tally's result and count are the loop's result and the number of probe calls in its trace |
| Wait.BoolProbeOutcome | brooklyn/utils/utils.go:24-28 | with a boolean probe the loop returns nil exactly when the probe holds within the budget, and otherwise the retry error naming the budget |
| Errors.Message | brooklyn/utils/utils.go:20 | the retry error's text is "Maximum number of retries (", the budget's decimal text, ") exceeded"; the starting-timeout text is the fixed prefix followed by the 10-attempt retry text; a remote error prints its own message (that the count reads back as the budget is `Errors.RetryCountReadsBack`) |
| Errors.DigitsReadBack | brooklyn/utils/utils.go:20 | the decimal digits `%d` prints for a natural number read back, most significant first, as that number |
| Errors.NegativeReadBack | brooklyn/utils/utils.go:20 | a minus sign followed by the digits of m reads back as -m |
| Errors.NonNegativeReadBack | brooklyn/utils/utils.go:20 | the digits of a non-negative number, read with an optional sign, read back as that number |
| Errors.DecimalReadBack | brooklyn/utils/utils.go:20 | the decimal text of every integer, minus sign included, reads back as that integer, so distinct integers print distinctly |
| Errors.RetryCountReadsBack | brooklyn/utils/utils.go:20 | the text between "Maximum number of retries (" and ") exceeded" in the retry error reads back as the budget that ran out |
| Errors.RetryTextsDistinct | brooklyn/utils/utils.go:20 | two retry errors print the same text only when their budgets are equal |
| Errors.NotStartingReadsAsTenAttempts | brooklyn/application/application.go:18 | the starting-timeout text is the prefix followed by the retry text of a 10-attempt budget |
| ApplicationController.StateOfStatus | brooklyn/application/application.go:175-188 | a known state is returned only for its own status word; `None` exactly for any string outside the five words |
| ApplicationController.StatusRoundTrip | brooklyn/application/application.go:175-188 | every known state is recovered from its status word |
| ApplicationController.StatusIsExact | brooklyn/application/application.go:175-188 | the match is case-sensitive, and the empty status maps to `None` |
| ApplicationController.StatusLookups | brooklyn/application/application.go:163-168 | k lookups of an application send k summary requests for that id, and none when there is no id |
| ApplicationController.Render | brooklyn/application/application.go:39-59 | the document starts with the header (name, location, services and type lines, ending in the template's trailing space) and is exactly the header when there are no entries; otherwise the `brooklyn.config` heading and each entry's line follow in the order given (with `RenderAppendsEntry` and `RenderEntryAt`) |
| ApplicationController.RenderAppendsEntry | brooklyn/application/application.go:39-44 | adding a configuration entry appends exactly its line to the document, after the section heading when it is the first; order is kept and duplicates stay |
| ApplicationController.RenderSectionIffConfigured | brooklyn/application/application.go:42-43 | the `brooklyn.config` section appears exactly when there is at least one entry; otherwise the document is the bare header |
| ApplicationController.RenderEntryAt | brooklyn/application/application.go:43-44 | entry i's line sits right after the header, the section heading and the lines of the entries before it |
| ApplicationController.RenderExample | brooklyn/application/application.go:39-44 | the document for a two-entry example, in full |
| ApplicationController.Application.constructor | brooklyn/application/application.go:28-36 | a new application holds the given client, id, name, location, type and configuration |
| ApplicationController.Application.Create | brooklyn/application/application.go:62-74 | sends one create request carrying the rendered document; on success the id becomes the returned entity id, and on failure the client's error is returned and the id is unchanged |
| ApplicationController.Application.Expunge | brooklyn/application/application.go:77-88 | without an id, nothing is sent and nil is returned; otherwise one expunge request is sent for (id, id) and its error is returned |
| ApplicationController.Application.Delete | brooklyn/application/application.go:91-104 | without an id, nothing is sent and nil is returned; otherwise one expunge-and-release request is sent and its error is returned |
| ApplicationController.Application.Rename | brooklyn/application/application.go:107-118 | without an id or without a name, nothing is sent; otherwise one rename request is sent with the name and its error is returned |
| ApplicationController.Application.GetApplicationState | brooklyn/application/application.go:160-189 | never an error; without an id the state is `Stopped` and nothing is sent; otherwise one summary lookup, with a failed lookup reading as `Stopped` and a status mapped by `StateOfStatus` |
| ApplicationController.Application.IsApplicationRunning | brooklyn/application/application.go:135-145 | one status lookup when there is an id, none otherwise; true exactly when the observed state is `Running` |
| ApplicationController.Application.IsApplicationStarting | brooklyn/application/application.go:147-157 | one status lookup when there is an id, none otherwise; true exactly when the observed state is `Starting` |
| ApplicationController.Application.WaitForApplicationRunning | brooklyn/application/application.go:121-124 | returns the running wait's result (at most 120 polls) unchanged, the log gains one status lookup per poll when there is an id and none otherwise, and the returned trace is `Run`'s trace of the poll probe with a budget of 120 and 5-second sleeps |
| ApplicationController.Application.WaitForApplicationStarting | brooklyn/application/application.go:127-133 | any failure of the starting wait (at most 20 polls) becomes the named `NotStarting` error, the log gains one status lookup per poll when there is an id and none otherwise, and the returned trace is `Run`'s trace of the poll probe with a budget of 20 and 3-second sleeps |
| ApplicationController.PollIsLookup | brooklyn/application/application.go:123-157 | poll i of a wait sees exactly what one `isApplicationRunning`/`isApplicationStarting` check sees once the i earlier polls have sent their lookups |
| ApplicationController.StartingTimesOut | brooklyn/application/application.go:127-133 | if no poll sees `Starting`, the starting wait fails after exactly 20 polls |
| ApplicationController.StartingReachedOnPoll | brooklyn/application/application.go:127-133 | if poll k is the first to see `Starting`, the wait succeeds after exactly k polls |
| ApplicationController.StateWaitOutcome | brooklyn/application/application.go:121-133 | a wait on a state succeeds exactly when some poll within the budget sees that state; otherwise it fails with the retry error naming the budget |
| ApplicationController.StartingWaitOutcome | brooklyn/application/application.go:127-133 | the starting wait succeeds exactly when one of its 20 polls sees `Starting` |
| ApplicationController.RunningWaitOutcome | brooklyn/application/application.go:121-124 | the running wait succeeds exactly when one of its 120 polls sees `Running`, and otherwise fails with the retry error naming 120 |
| ApplicationController.NoIdNeverStarts | brooklyn/application/application.go:160-166 | without an id the starting wait always fails after 20 polls and the running wait after 120 polls, and no request is sent |
| ApplicationController.NotStartingMisstatesBudget | brooklyn/application/application.go:18 | the starting-timeout text names 10 attempts and not the 20 that the starting wait makes |
| Resource.ResourceData.constructor | brooklyn/resource_application.go:19-44 | a new record holds the stored id and the declared fields |
| Resource.CatalogType | brooklyn/resource_application.go:62 | the type is the catalog id, a colon, then the version |
| Resource.CatalogTypeRoundTrip | brooklyn/resource_application.go:62 | a catalog id without a colon, and any version, are recovered by splitting the type at its first colon |
| Resource.ConfigurationsFromMap | brooklyn/resource_application.go:135-146 | the entries list the map (`Lists`: one entry per key with that key's value, keys distinct) and every key is present, in any order |
| Resource.AwaitStartedAndRunning | brooklyn/resource_application.go:82-94 | the create's two waits: the starting wait, then the running wait only if the starting wait succeeded; the first failure is returned, and the log gains all their lookups |
| Resource.AwaitEffectNotStarting | brooklyn/resource_application.go:84-87 | proof step for `AwaitStartedAndRunning` (one unfolding of `AwaitEffect`): a failed starting wait ends the waits with `NotStarting` after its own polls only |
| Resource.AwaitEffectRunning | brooklyn/resource_application.go:89-93 | proof step for `AwaitStartedAndRunning` (one unfolding of `AwaitEffect`): after a successful starting wait, the running wait's result is returned, and its polls follow the starting wait's |
| Resource.ResourceApplicationCreate | brooklyn/resource_application.go:54-97 | sends one create request whose document lists the configuration map in some order, stores the new id on success (the old id on failure), then waits if asked; the error, the stored id and every request sent are given by `CreateEffect` |
| Resource.ResourceApplicationRead | brooklyn/resource_application.go:99-101 | refresh always returns nil |
| Resource.ResourceApplicationUpdate | brooklyn/resource_application.go:103-118 | renames only when the name changed and there is an id and a name, returning the rename's error; otherwise nothing is sent and nil is returned |
| Resource.ResourceApplicationDelete | brooklyn/resource_application.go:120-132 | without an id, nothing is sent; otherwise one expunge-and-release request is sent; the stored id is cleared exactly when the call returns nil |
| Resource.CreateFailureStoresNothing | brooklyn/resource_application.go:76-79 | a failed create request is returned as is, no waits run and the stored id keeps its old value |
| Resource.IdRecordedBeforeWaiting | brooklyn/resource_application.go:76-82 | after a successful create request the new id is stored whatever the waits return; without `wait_for_running`, the result is nil and nothing else is sent |
| Resource.StartingFailureSkipsRunning | brooklyn/resource_application.go:82-88 | a failed starting wait ends the create with `NotStarting` after exactly 20 polls (20 lookups when the entity id is non-empty, none when it is empty), and the running wait never runs |
| Resource.WaitedCreateSucceedsOnlyWhenRunning | brooklyn/resource_application.go:82-96 | a waiting create returns nil only if a starting poll saw `Starting` and, after those polls, a running poll saw `Running` |
| Resource.EmptyEntityIdFailsWait | brooklyn/resource_application.go:80-88 | a create answered with an empty entity id stores it, fails the starting wait with `NotStarting`, and sends no lookups |

## Left out

- Logging (`log.Printf`, `log.Println`) is not modelled. It has no effect on results.
- Real time is not modelled. A sleep is a `Sleep(seconds)` event in the trace that the wait returns; the two application waits return that trace as an extra result, which the Go methods do not have.
- The status lookups that a wait's probe sends are appended to the client log as one block after the wait. The order of the lookups among the sleeps is in the wait's trace, not in the log.
- The waits do not call `IsApplicationRunning`/`IsApplicationStarting` as methods: their probe is the same check written as a function of the poll number, and `ApplicationController.PollIsLookup` states that poll i equals one such check made after the i earlier lookups.
- The error path of `yamlAsBytes` is not modelled. The template is a constant that parses, and the model's `Render` is total.
- The delete request's URL text (`/v1/applications/<id>/entities/<id>/expunge?release=true`) is not modelled. It is the request `ExpungeRelease(id, id)`.
- The reply payloads of the expunge and rename requests (logged and then dropped) are not modelled.
- The resource schema (`resourceApplication`) is not modelled. This covers required fields, the default of `wait_for_running` and the map type. The record holds the declared values as the framework would supply them, and a missing `application_configuration` is the empty map.
- Go type assertions that would panic on an ill-typed field or map value are not modelled. Map values are strings.
- The order in which Go iterates over a map is not modelled. `ConfigurationsFromMap` picks keys in an arbitrary order, and create's contract holds for whichever order is produced.
- `d.HasChange` is not modelled. It is the record's `nameChanged` flag, supplied by the framework.
- The remote client library and its transport are not modelled. `brooklyn/config/config.go` and `brooklyn/provider.go` are not part of this model.
