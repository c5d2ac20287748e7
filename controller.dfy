/** The application lifecycle controller: renders an application's YAML
    deployment document, deploys it, renames and removes the deployed
    application, maps the service's status strings onto a closed set of
    states, and waits, by polling, for the application to start and to run. */
module ApplicationController {
  import opened Errors
  import opened Wait
  import opened Remote

  // ----- states -----

  /** The local view of an application's state. */
  datatype State = None | Running | Starting | Stopping | Error | Stopped

  /** The service's status word for each known state. */
  function StatusName(st: State): string
    requires st != None
  {
    match st
    case Running => "RUNNING"
    case Starting => "STARTING"
    case Stopping => "STOPPING"
    case Error => "ERROR"
    case Stopped => "STOPPED"
  }

  const KnownStatuses: set<string> := {"RUNNING", "STARTING", "STOPPING", "ERROR", "STOPPED"}

  /** Maps a status string onto a state by exact, case-sensitive match;
      anything else, the empty string included, is `None`. */
  function StateOfStatus(status: string): (st: State)
    ensures st != None ==> StatusName(st) == status
    ensures st == None <==> status !in KnownStatuses
  {
    match status
    case "RUNNING" => Running
    case "STARTING" => Starting
    case "STOPPING" => Stopping
    case "ERROR" => State.Error
    case "STOPPED" => Stopped
    case _ => None
  }

  /** Every known state is recovered from its own status word. */
  lemma StatusRoundTrip(st: State)
    requires st != None
    ensures StateOfStatus(StatusName(st)) == st
  {
  }

  /** The mapping does not fold case and does not accept the empty string. */
  lemma StatusIsExact()
    ensures StateOfStatus("RUNNING") == Running
    ensures StateOfStatus("running") == None
    ensures StateOfStatus("") == None
  {
  }

  /** The state the controller reports for application `id` when its status
      lookup is request number `n`: `Stopped` when there is no id (no lookup
      is made) or when the lookup fails, the mapped status otherwise. */
  function ObservedState(id: string, answer: nat -> Result<string>, n: nat): State
  {
    if id == "" then Stopped
    else match answer(n)
      case Err(_) => Stopped
      case Ok(status) => StateOfStatus(status)
  }

  /** The number of requests `k` status lookups of application `id` send:
      none when there is no id. */
  function LookupCount(id: string, k: nat): nat
  {
    if id == "" then 0 else k
  }

  /** The requests `k` status lookups of application `id` send. */
  function StatusLookups(id: string, k: nat): (reqs: seq<Request>)
    ensures |reqs| == LookupCount(id, k)
    ensures forall i :: 0 <= i < |reqs| ==> reqs[i] == ApplicationSummary(id)
  {
    if id == "" || k == 0 then [] else StatusLookups(id, k - 1) + [ApplicationSummary(id)]
  }

  /** Two runs of lookups of one application, appended to a log, read as
      one run as long as both. */
  lemma AppendLookups(log: seq<Request>, id: string, a: nat, b: nat)
    ensures log + StatusLookups(id, a) + StatusLookups(id, b) == log + StatusLookups(id, a + b)
  {
    assert StatusLookups(id, a) + StatusLookups(id, b) == StatusLookups(id, a + b);
  }

  // ----- the two waits -----

  const StartingAttempts := 20
  const StartingInterval := 3
  const RunningAttempts := 120
  const RunningInterval := 5

  /** The state seen at poll `i` of a wait whose first lookup is request `n`:
      each poll of a known application sends exactly one request. */
  function PolledState(id: string, answer: nat -> Result<string>, n: nat, i: nat): State
  {
    ObservedState(id, answer, n + i)
  }

  /** The probe of a wait for `target`. */
  function StateProbe(id: string, answer: nat -> Result<string>, n: nat, target: State): nat -> bool
  {
    (i: nat) => PolledState(id, answer, n, i) == target
  }

  /** Poll `i` of a wait sees what a single poll sees once the `i` earlier
      polls have sent their lookups: the wait's probe is the controller's
      one-poll check, repeated. */
  lemma PollIsLookup(id: string, answer: nat -> Result<string>, n: nat, i: nat, target: State)
    ensures StateProbe(id, answer, n + LookupCount(id, i), target)(0) == StateProbe(id, answer, n, target)(i)
  {
  }

  /** The result and poll count of a starting wait whose first lookup is request `n`. */
  function StartingWait(id: string, answer: nat -> Result<string>, n: nat): Tally
  {
    Tallied(Lift(StateProbe(id, answer, n, Starting)), StartingAttempts)
  }

  /** The result and poll count of a running wait whose first lookup is request `n`. */
  function RunningWait(id: string, answer: nat -> Result<string>, n: nat): Tally
  {
    Tallied(Lift(StateProbe(id, answer, n, Running)), RunningAttempts)
  }

  // ----- rendering -----

  datatype Configuration = Configuration(key: string, value: string)

  /** What the document is rendered from. */
  datatype Descriptor = Descriptor(name: string, location: string, typ: string, configurations: seq<Configuration>)

  function Header(d: Descriptor): string
  {
    "name: " + d.name + "\nlocation: " + d.location + "\nservices:\n  - type: " + d.typ + " "
  }

  const ConfigHeading := "\n    brooklyn.config:"

  function Entry(c: Configuration): string
  {
    "\n      " + c.key + ": " + c.value
  }

  /** The configuration entries, in the order given. */
  function Entries(cs: seq<Configuration>): string
  {
    if cs == [] then "" else Entry(cs[0]) + Entries(cs[1..])
  }

  /** The YAML deployment document: a header, and a `brooklyn.config`
      section only when there is at least one configuration entry. */
  function Render(d: Descriptor): (doc: string)
    ensures |Header(d)| <= |doc| && doc[..|Header(d)|] == Header(d)
    ensures d.configurations == [] <==> |doc| == |Header(d)|
  {
    Header(d) + (if |d.configurations| > 0 then ConfigHeading + Entries(d.configurations) else "")
  }

  lemma {:induction false} EntriesSplit(cs: seq<Configuration>, i: nat)
    requires i <= |cs|
    ensures Entries(cs) == Entries(cs[..i]) + Entries(cs[i..])
  {
    if i > 0 {
      EntriesSplit(cs[1..], i - 1);
      assert cs[1..][..i - 1] == cs[..i][1..];
      assert cs[1..][i - 1..] == cs[i..];
    } else {
      assert cs[..0] == [];
      assert cs[0..] == cs;
    }
  }

  /** Adding an entry at the end adds exactly its text at the end of the
      document, after the section heading when it is the first entry:
      entries keep their order and duplicates are not dropped. */
  lemma RenderAppendsEntry(d: Descriptor, c: Configuration)
    ensures Render(d.(configurations := d.configurations + [c]))
         == Render(d) + (if d.configurations == [] then ConfigHeading else "") + Entry(c)
  {
    var cs := d.configurations + [c];
    EntriesSplit(cs, |d.configurations|);
    assert cs[..|d.configurations|] == d.configurations;
    assert cs[|d.configurations|..] == [c];
    assert [c][1..] == [];
  }

  /** The document has a configuration section exactly when there is a
      configuration entry; without one it is the bare header. */
  lemma RenderSectionIffConfigured(d: Descriptor)
    ensures d.configurations == [] <==> Render(d) == Header(d)
    ensures d.configurations != [] ==>
              Render(d)[..|Header(d)| + |ConfigHeading|] == Header(d) + ConfigHeading
  {
    if d.configurations != [] {
      assert |Render(d)| > |Header(d)|;
      assert Render(d) == (Header(d) + ConfigHeading) + Entries(d.configurations);
    }
  }

  /** Entry `i` sits right after the header, the section heading and the
      entries before it. */
  lemma RenderEntryAt(d: Descriptor, i: nat)
    requires i < |d.configurations|
    ensures var start := |Header(d)| + |ConfigHeading| + |Entries(d.configurations[..i])|;
            start + |Entry(d.configurations[i])| <= |Render(d)|
            && Render(d)[start..start + |Entry(d.configurations[i])|] == Entry(d.configurations[i])
  {
    var cs := d.configurations;
    var a := Header(d) + ConfigHeading + Entries(cs[..i]);
    RenderAround(d, i);
    assert |a| == |Header(d)| + |ConfigHeading| + |Entries(cs[..i])|;
    Middle(a, Entry(cs[i]), Entries(cs[i + 1..]));
  }

  lemma RenderAround(d: Descriptor, i: nat)
    requires i < |d.configurations|
    ensures var cs := d.configurations;
            Render(d) == (Header(d) + ConfigHeading + Entries(cs[..i])) + (Entry(cs[i]) + Entries(cs[i + 1..]))
  {
    var cs := d.configurations;
    EntriesSplit(cs, i);
    assert cs[i..][1..] == cs[i + 1..];
    var h, pre, e, post := Header(d), Entries(cs[..i]), Entry(cs[i]), Entries(cs[i + 1..]);
    assert Entries(cs[i..]) == e + post;
    assert Render(d) == h + (ConfigHeading + (pre + (e + post)));
  }

  lemma Middle(a: string, b: string, c: string)
    ensures |a| + |b| <= |a + (b + c)| && (a + (b + c))[|a|..|a| + |b|] == b
  {
  }

  /** The two-entry example: entries in the order given. */
  lemma RenderExample()
    ensures Render(Descriptor("app1", "loc1", "svc:1.0", [Configuration("a", "1"), Configuration("b", "2")]))
         == "name: app1" + "\nlocation: loc1" + "\nservices:\n  - type: svc:1.0 "
            + "\n    brooklyn.config:" + "\n      a: 1" + "\n      b: 2"
  {
    var cs := [Configuration("a", "1"), Configuration("b", "2")];
    var d := Descriptor("app1", "loc1", "svc:1.0", cs);
    assert cs[1..] == [Configuration("b", "2")];
    assert cs[1..][1..] == [];
    var h, e := "name: app1" + "\nlocation: loc1" + "\nservices:\n  - type: svc:1.0 ", "\n      a: 1" + "\n      b: 2";
    assert Entries(cs) == e by {
      assert Entries(cs) == "\n      a: 1" + ("\n      b: 2" + "");
    }
    assert Header(d) == h;
    assert Render(d) == h + (ConfigHeading + e);
  }

  // ----- the application object -----

  class Application {
    const client: Client
    /** The deployed application's entity id; empty until created. */
    var id: string
    const name: string
    const location: string
    const typ: string
    const configurations: seq<Configuration>

    constructor(client: Client, id: string, name: string, location: string, typ: string,
                configurations: seq<Configuration>)
      ensures this.client == client && this.id == id && this.name == name
      ensures this.location == location && this.typ == typ && this.configurations == configurations
    {
      this.client := client;
      this.id := id;
      this.name := name;
      this.location := location;
      this.typ := typ;
      this.configurations := configurations;
    }

    function AsDescriptor(): Descriptor
    {
      Descriptor(name, location, typ, configurations)
    }

    /** Deploys the rendered document. On success the id becomes the new
        entity's id; on failure the client's error is returned and the id
        is left as it was. */
    method Create() returns (err: Outcome)
      modifies this, client
      ensures client.log == old(client.log) + [CreateFromBytes(Render(AsDescriptor()))]
      ensures var reply := client.answer(|old(client.log)|);
              && err == reply.ToOutcome()
              && id == (if reply.Ok? then reply.value else old(id))
    {
      var yaml := Render(AsDescriptor());
      var reply := client.Send(CreateFromBytes(yaml));
      if reply.Err? {
        return Fail(reply.error);
      }
      id := reply.value;
      err := Nil;
    }

    /** Expunges the application; a no-op without an id. */
    method Expunge() returns (err: Outcome)
      modifies client
      ensures id == "" ==> err == Nil && client.log == old(client.log)
      ensures id != "" ==> && client.log == old(client.log) + [ExpungeEntity(id, id)]
                           && err == client.answer(|old(client.log)|).ToOutcome()
    {
      var appId := id;
      if appId != "" {
        var reply := client.Send(ExpungeEntity(appId, appId));
        if reply.Err? {
          return Fail(reply.error);
        }
      }
      err := Nil;
    }

    /** Expunges and releases the application; a no-op without an id. The id
        itself is left for the caller to clear. */
    method Delete() returns (err: Outcome)
      modifies client
      ensures id == "" ==> err == Nil && client.log == old(client.log)
      ensures id != "" ==> && client.log == old(client.log) + [ExpungeRelease(id, id)]
                           && err == client.answer(|old(client.log)|).ToOutcome()
    {
      if id == "" {
        return Nil;
      }
      var reply := client.Send(ExpungeRelease(id, id));
      err := reply.ToOutcome();
    }

    /** Renames the application to `name`; a no-op without an id or without a name. */
    method Rename() returns (err: Outcome)
      modifies client
      ensures id == "" || name == "" ==> err == Nil && client.log == old(client.log)
      ensures id != "" && name != "" ==>
                && client.log == old(client.log) + [RenameEntity(id, id, name)]
                && err == client.answer(|old(client.log)|).ToOutcome()
    {
      var appId := id;
      if appId != "" && name != "" {
        var reply := client.Send(RenameEntity(appId, appId, name));
        if reply.Err? {
          return Fail(reply.error);
        }
      }
      err := Nil;
    }

    /** The application's current state. Never an error: no id, or a failed
        lookup, reads as `Stopped`; without an id nothing is sent. */
    method GetApplicationState() returns (st: State, err: Outcome)
      modifies client
      ensures err == Nil
      ensures st == ObservedState(id, client.answer, |old(client.log)|)
      ensures client.log == old(client.log) + StatusLookups(id, 1)
      ensures id == "" ==> st == Stopped && client.log == old(client.log)
    {
      if id == "" {
        return Stopped, Nil;
      }
      var reply := client.Send(ApplicationSummary(id));
      if reply.Err? {
        return Stopped, Nil;
      }
      st := StateOfStatus(reply.value);
      err := Nil;
    }

    /** One poll of the running wait. */
    method IsApplicationRunning() returns (b: bool)
      modifies client
      ensures b == StateProbe(id, client.answer, |old(client.log)|, Running)(0)
      ensures client.log == old(client.log) + StatusLookups(id, 1)
    {
      var st, _ := GetApplicationState();
      b := st == Running;
    }

    /** One poll of the starting wait. */
    method IsApplicationStarting() returns (b: bool)
      modifies client
      ensures b == StateProbe(id, client.answer, |old(client.log)|, Starting)(0)
      ensures client.log == old(client.log) + StatusLookups(id, 1)
    {
      var st, _ := GetApplicationState();
      b := st == Starting;
    }

    /** Polls until the application runs: at most 120 polls, 5 seconds apart.
        The wait's own error comes back unchanged; `trace` is what the wait
        did, polls and sleeps in order. */
    method WaitForApplicationRunning() returns (err: Outcome, trace: seq<Event>)
      modifies client
      ensures var w := RunningWait(id, client.answer, |old(client.log)|);
              && err == w.result
              && client.log == old(client.log) + StatusLookups(id, w.attempts)
      ensures trace == Run(Lift(StateProbe(id, client.answer, |old(client.log)|, Running)),
                           RunningAttempts, RunningInterval).trace
    {
      var probe := StateProbe(id, client.answer, |client.log|, Running);
      err, trace := WaitForSpecific(probe, RunningAttempts, RunningInterval);
      RunTally(Lift(probe), RunningAttempts, RunningInterval);
      // the status lookups the probe made, one per attempt
      client.log := client.log + StatusLookups(id, Calls(trace));
    }

    /** Polls until the application is starting: at most 20 polls, 3 seconds
        apart. Any failure of the wait becomes the named `NotStarting` error;
        `trace` is what the wait did, polls and sleeps in order. */
    method WaitForApplicationStarting() returns (err: Outcome, trace: seq<Event>)
      modifies client
      ensures var w := StartingWait(id, client.answer, |old(client.log)|);
              && err == (if w.result.Fail? then Fail(NotStarting) else Nil)
              && client.log == old(client.log) + StatusLookups(id, w.attempts)
      ensures trace == Run(Lift(StateProbe(id, client.answer, |old(client.log)|, Starting)),
                           StartingAttempts, StartingInterval).trace
    {
      var probe := StateProbe(id, client.answer, |client.log|, Starting);
      var waitErr;
      waitErr, trace := WaitForSpecific(probe, StartingAttempts, StartingInterval);
      RunTally(Lift(probe), StartingAttempts, StartingInterval);
      // the status lookups the probe made, one per attempt
      client.log := client.log + StatusLookups(id, Calls(trace));
      if waitErr.Fail? {
        return Fail(NotStarting), trace;
      }
      err := Nil;
    }
  }

  // ----- properties of the waits -----

  /** If none of the 20 polls sees `Starting`, the inner wait fails after
      exactly 20 polls. */
  lemma StartingTimesOut(id: string, answer: nat -> Result<string>, n: nat)
    requires forall j :: 0 <= j < StartingAttempts ==> PolledState(id, answer, n, j) != Starting
    ensures var w := StartingWait(id, answer, n);
            w.result.Fail? && w.attempts == StartingAttempts
  {
    var probe := Lift(StateProbe(id, answer, n, Starting));
    forall j | 0 <= j < StartingAttempts ensures !Settles(probe(j)) {
      assert !StateProbe(id, answer, n, Starting)(j);
    }
    ExhaustsBudget(probe, StartingAttempts, StartingInterval);
    RunTally(probe, StartingAttempts, StartingInterval);
  }

  /** If poll `k` is the first to see `Starting`, the starting wait succeeds
      after exactly `k` polls. */
  lemma StartingReachedOnPoll(id: string, answer: nat -> Result<string>, n: nat, k: nat)
    requires 1 <= k <= StartingAttempts
    requires forall j :: 0 <= j < k - 1 ==> PolledState(id, answer, n, j) != Starting
    requires PolledState(id, answer, n, k - 1) == Starting
    ensures var w := StartingWait(id, answer, n);
            w.result == Nil && w.attempts == k
  {
    var probe := Lift(StateProbe(id, answer, n, Starting));
    forall j | 0 <= j < k - 1 ensures !Settles(probe(j)) {
      assert !StateProbe(id, answer, n, Starting)(j);
    }
    assert probe(k - 1).stop;
    SettlesOnAttempt(probe, StartingAttempts, StartingInterval, k);
    RunTally(probe, StartingAttempts, StartingInterval);
  }

  /** Some poll of a starting wait whose first lookup is request `n` sees `Starting`. */
  predicate StartingSeen(id: string, answer: nat -> Result<string>, n: nat)
  {
    exists j :: 0 <= j < StartingAttempts && PolledState(id, answer, n, j) == Starting
  }

  /** Some poll of a running wait whose first lookup is request `n` sees `Running`. */
  predicate RunningSeen(id: string, answer: nat -> Result<string>, n: nat)
  {
    exists j :: 0 <= j < RunningAttempts && PolledState(id, answer, n, j) == Running
  }

  /** A boolean wait on a state succeeds exactly when one of its polls sees
      that state. */
  lemma StateWaitOutcome(id: string, answer: nat -> Result<string>, n: nat, target: State,
                         maxAttempts: int, interval: nat)
    ensures var w := Tallied(Lift(StateProbe(id, answer, n, target)), maxAttempts);
            && (w.result.Nil? <==> exists j :: 0 <= j < maxAttempts && PolledState(id, answer, n, j) == target)
            && (w.result.Fail? ==> w.result.error == RetriesExceeded(maxAttempts))
  {
    var f := StateProbe(id, answer, n, target);
    var w := Tallied(Lift(f), maxAttempts);
    BoolProbeOutcome(f, maxAttempts, interval);
    RunTally(Lift(f), maxAttempts, interval);
    if w.result.Nil? {
      var j :| 0 <= j < maxAttempts && f(j);
      assert PolledState(id, answer, n, j) == target;
    } else {
      forall j | 0 <= j < maxAttempts ensures PolledState(id, answer, n, j) != target {
        assert !f(j);
      }
    }
  }

  /** The starting wait succeeds exactly when one of its 20 polls sees
      `Starting`. */
  lemma StartingWaitOutcome(id: string, answer: nat -> Result<string>, n: nat)
    ensures StartingWait(id, answer, n).result.Nil? <==> StartingSeen(id, answer, n)
  {
    StateWaitOutcome(id, answer, n, Starting, StartingAttempts, StartingInterval);
  }

  /** The running wait succeeds exactly when one of its 120 polls sees
      `Running`, and otherwise returns the retry error naming 120. */
  lemma RunningWaitOutcome(id: string, answer: nat -> Result<string>, n: nat)
    ensures var w := RunningWait(id, answer, n);
            && (w.result.Nil? <==> RunningSeen(id, answer, n))
            && (w.result.Fail? ==> w.result.error == RetriesExceeded(RunningAttempts))
  {
    StateWaitOutcome(id, answer, n, Running, RunningAttempts, RunningInterval);
  }

  /** Without an id the state always reads `Stopped`: the starting wait
      always times out and the running wait always exhausts its budget,
      and neither sends a request. */
  lemma NoIdNeverStarts(answer: nat -> Result<string>, n: nat)
    ensures StartingWait("", answer, n) == Tally(StartingWait("", answer, n).result, StartingAttempts)
    ensures StartingWait("", answer, n).result.Fail?
    ensures RunningWait("", answer, n) == Tally(Fail(RetriesExceeded(RunningAttempts)), RunningAttempts)
    ensures StatusLookups("", StartingWait("", answer, n).attempts) == []
  {
    StartingTimesOut("", answer, n);
    var probe := Lift(StateProbe("", answer, n, Running));
    forall j | 0 <= j < RunningAttempts ensures !Settles(probe(j)) {
      assert !StateProbe("", answer, n, Running)(j);
    }
    ExhaustsBudget(probe, RunningAttempts, RunningInterval);
    RunTally(probe, RunningAttempts, RunningInterval);
  }

  /** The starting-timeout error names 10 attempts, while the starting wait
      makes 20. */
  lemma NotStartingMisstatesBudget()
    ensures Message(NotStarting) == NotStartingPrefix + Message(RetriesExceeded(10))
    ensures Message(NotStarting) != NotStartingPrefix + Message(RetriesExceeded(StartingAttempts))
  {
    NotStartingReadsAsTenAttempts();
    assert Decimal(StartingAttempts) == "20" by {
      assert Digits(2) == "2" && Digits(0) == "0";
    }
    var ten, twenty := RetryText("10"), RetryText("20");
    assert ten != twenty by {
      assert ten[27] == '1' && twenty[27] == '2';
    }
    assert (NotStartingPrefix + ten)[|NotStartingPrefix|..] == ten;
    assert (NotStartingPrefix + twenty)[|NotStartingPrefix|..] == twenty;
  }
}
