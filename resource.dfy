/** The resource adapter: the Create, Read, Update and Delete callbacks the
    host resource framework invokes for one declared application resource,
    each driving the lifecycle controller. */
module Resource {
  import opened Errors
  import opened Wait
  import opened Remote
  import opened ApplicationController

  /** The host framework's record of one resource: the stored id (the only
      state kept between operations) and the declared fields. A missing
      `application_configuration` is the empty map. */
  class ResourceData {
    var id: string
    const applicationName: string
    const locationName: string
    const catalogId: string
    const catalogVersion: string
    const waitForRunning: bool
    const applicationConfiguration: map<string, string>
    /** Whether `application_name` differs from the stored state. */
    const nameChanged: bool

    constructor(id: string, applicationName: string, locationName: string, catalogId: string,
                catalogVersion: string, waitForRunning: bool,
                applicationConfiguration: map<string, string>, nameChanged: bool)
      ensures this.id == id && this.applicationName == applicationName
      ensures this.locationName == locationName && this.catalogId == catalogId
      ensures this.catalogVersion == catalogVersion && this.waitForRunning == waitForRunning
      ensures this.applicationConfiguration == applicationConfiguration
      ensures this.nameChanged == nameChanged
    {
      this.id := id;
      this.applicationName := applicationName;
      this.locationName := locationName;
      this.catalogId := catalogId;
      this.catalogVersion := catalogVersion;
      this.waitForRunning := waitForRunning;
      this.applicationConfiguration := applicationConfiguration;
      this.nameChanged := nameChanged;
    }
  }

  // ----- the application type -----

  /** The application type: catalog id and version joined by a colon. */
  function CatalogType(catalogId: string, catalogVersion: string): (t: string)
    ensures |t| == |catalogId| + 1 + |catalogVersion|
    ensures t[..|catalogId|] == catalogId && t[|catalogId|] == ':'
    ensures t[|catalogId| + 1..] == catalogVersion
  {
    catalogId + ":" + catalogVersion
  }

  /** Splits a type at its first colon; a type without one is all id. */
  function CatalogParts(t: string): (parts: (string, string))
    ensures ':' !in parts.0
    ensures ':' in t ==> t == parts.0 + ":" + parts.1
    ensures ':' !in t ==> parts == (t, "")
  {
    if t == [] then ("", "")
    else if t[0] == ':' then ("", t[1..])
    else
      var rest := CatalogParts(t[1..]);
      assert t == [t[0]] + t[1..];
      ([t[0]] + rest.0, rest.1)
  }

  /** A catalog id without a colon, and any version, are recovered from the type. */
  lemma {:induction false} CatalogTypeRoundTrip(catalogId: string, catalogVersion: string)
    requires ':' !in catalogId
    ensures CatalogParts(CatalogType(catalogId, catalogVersion)) == (catalogId, catalogVersion)
  {
    var t := CatalogType(catalogId, catalogVersion);
    if catalogId != [] {
      assert t[1..] == CatalogType(catalogId[1..], catalogVersion);
      CatalogTypeRoundTrip(catalogId[1..], catalogVersion);
      assert [catalogId[0]] + catalogId[1..] == catalogId;
    }
  }

  // ----- configuration -----

  /** `cs` lists the map: one entry per key, each with the key's value. */
  ghost predicate Lists(cs: seq<Configuration>, m: map<string, string>)
  {
    && |cs| == |m|
    && (forall i :: 0 <= i < |cs| ==> cs[i].key in m && cs[i].value == m[cs[i].key])
    && (forall i, j :: 0 <= i < j < |cs| ==> cs[i].key != cs[j].key)
  }

  /** The configuration entries of a map, one per key, in no particular
      order (the loop takes the keys in whatever order it likes). */
  method ConfigurationsFromMap(m: map<string, string>) returns (cs: seq<Configuration>)
    ensures Lists(cs, m)
    ensures forall k :: k in m ==> Configuration(k, m[k]) in cs
  {
    cs := [];
    var rest := m.Keys;
    while rest != {}
      invariant rest <= m.Keys
      invariant |cs| + |rest| == |m|
      invariant forall i :: 0 <= i < |cs| ==> cs[i].key in m && cs[i].value == m[cs[i].key] && cs[i].key !in rest
      invariant forall i, j :: 0 <= i < j < |cs| ==> cs[i].key != cs[j].key
      invariant forall k :: k in m && k !in rest ==> Configuration(k, m[k]) in cs
      decreases rest
    {
      var k :| k in rest;
      cs := cs + [Configuration(k, m[k])];
      rest := rest - {k};
    }
  }

  /** The document a create deploys, for a given order of the configuration. */
  function DocumentFor(d: ResourceData, cs: seq<Configuration>): string
  {
    Render(Descriptor(d.applicationName, d.locationName, CatalogType(d.catalogId, d.catalogVersion), cs))
  }

  // ----- create -----

  /** What the two waits of a create (for `Starting`, then for `Running`)
      return for application `eid` whose first status lookup is request
      `n`, and how many status polls they make in all. */
  datatype Waits = Waits(err: Outcome, polls: nat)

  function AwaitEffect(eid: string, answer: nat -> Result<string>, n: nat): Waits
  {
    var s := StartingWait(eid, answer, n);
    if s.result.Fail? then Waits(Fail(NotStarting), s.attempts)
    else
      var r := RunningWait(eid, answer, n + LookupCount(eid, s.attempts));
      Waits(r.result, s.attempts + r.attempts)
  }

  /** Waits for the created application to start and then to run, stopping
      at the first failing wait. */
  method AwaitStartedAndRunning(appln: Application) returns (err: Outcome)
    modifies appln.client
    ensures var w := AwaitEffect(appln.id, appln.client.answer, |old(appln.client.log)|);
            && err == w.err
            && appln.client.log == old(appln.client.log) + StatusLookups(appln.id, w.polls)
  {
    ghost var id, answer, n1 := appln.id, appln.client.answer, |appln.client.log|;
    var trace;
    err, trace := appln.WaitForApplicationStarting();
    ghost var s := StartingWait(id, answer, n1);
    if err.Nil? {
      ghost var n2 := |appln.client.log|;
      assert n2 == n1 + LookupCount(id, s.attempts);
      err, trace := appln.WaitForApplicationRunning();
      ghost var r := RunningWait(id, answer, n2);
      AwaitEffectRunning(id, answer, n1, s, n2, r);
      AppendLookups(old(appln.client.log), id, s.attempts, r.attempts);
    } else {
      AwaitEffectNotStarting(id, answer, n1, s);
    }
  }

  lemma AwaitEffectNotStarting(eid: string, answer: nat -> Result<string>, n: nat, s: Tally)
    requires s == StartingWait(eid, answer, n) && s.result.Fail?
    ensures AwaitEffect(eid, answer, n) == Waits(Fail(NotStarting), s.attempts)
  {
  }

  lemma AwaitEffectRunning(eid: string, answer: nat -> Result<string>, n: nat, s: Tally, m: nat, r: Tally)
    requires s == StartingWait(eid, answer, n) && s.result.Nil?
    requires m == n + LookupCount(eid, s.attempts)
    requires r == RunningWait(eid, answer, m)
    ensures AwaitEffect(eid, answer, n) == Waits(r.result, s.attempts + r.attempts)
  {
  }

  /** What a create leaves behind once its create request (request number
      `n`) is answered: the error it returns, the stored id, and how many
      status polls its waits make after the create request. */
  datatype Effect = Effect(err: Outcome, id: string, polls: nat)

  function CreateEffect(waitForRunning: bool, answer: nat -> Result<string>, n: nat, oldId: string): Effect
  {
    match answer(n)
    case Err(e) => Effect(Fail(e), oldId, 0)
    case Ok(eid) =>
      if !waitForRunning then Effect(Nil, eid, 0)
      else
        var w := AwaitEffect(eid, answer, n + 1);
        Effect(w.err, eid, w.polls)
  }

  /** Deploys the declared application, records its id, and, when
      `wait_for_running` is set, waits for it to start and then to run.
      The log gains the create request (its document lists the configuration
      in some order) followed by the waits' status lookups. */
  method ResourceApplicationCreate(d: ResourceData, client: Client) returns (err: Outcome)
    modifies d, client
    ensures var e := CreateEffect(d.waitForRunning, client.answer, |old(client.log)|, old(d.id));
            && err == e.err && d.id == e.id
            && exists cs :: && Lists(cs, d.applicationConfiguration)
                            && client.log == old(client.log) + [CreateFromBytes(DocumentFor(d, cs))]
                                                             + StatusLookups(e.id, e.polls)
  {
    var waitForRunning := d.waitForRunning;
    var configurations: seq<Configuration> := [];
    if |d.applicationConfiguration| > 0 {
      configurations := ConfigurationsFromMap(d.applicationConfiguration);
    }
    var appln := new Application(client, "", d.applicationName, d.locationName,
                                 CatalogType(d.catalogId, d.catalogVersion), configurations);
    ghost var n0, oldId := |client.log|, d.id;
    ghost var sent := client.log + [CreateFromBytes(DocumentFor(d, configurations))];
    assert Lists(configurations, d.applicationConfiguration);

    err := appln.Create();
    assert client.log == sent;
    if err.Nil? {
      var eid := appln.id;
      assert client.answer(n0) == Ok(eid);
      d.id := eid;
      if waitForRunning {
        err := AwaitStartedAndRunning(appln);
        CreateEffectAnswered(true, client.answer, n0, oldId, eid);
      } else {
        CreateEffectAnswered(false, client.answer, n0, oldId, eid);
      }
    } else {
      CreateFailureStoresNothing(waitForRunning, client.answer, n0, oldId);
    }
  }

  /** Once the create request is answered with an id, the effect is the
      waits' (when asked for) under that id. */
  lemma CreateEffectAnswered(waitForRunning: bool, answer: nat -> Result<string>, n: nat, oldId: string, eid: string)
    requires answer(n) == Ok(eid)
    ensures var e := CreateEffect(waitForRunning, answer, n, oldId);
            var w := AwaitEffect(eid, answer, n + 1);
            && e.id == eid
            && e.err == (if waitForRunning then w.err else Nil)
            && e.polls == (if waitForRunning then w.polls else 0)
  {
  }

  // ----- read, update, delete -----

  /** Refresh does nothing. */
  method ResourceApplicationRead(d: ResourceData, client: Client) returns (err: Outcome)
    ensures err == Nil
  {
    err := Nil;
  }

  /** Renames the application when its declared name changed (and there is
      an id and a name); otherwise sends nothing. */
  method ResourceApplicationUpdate(d: ResourceData, client: Client) returns (err: Outcome)
    modifies client
    ensures var renames := d.nameChanged && d.id != "" && d.applicationName != "";
            && (renames ==> && client.log == old(client.log) + [RenameEntity(d.id, d.id, d.applicationName)]
                            && err == client.answer(|old(client.log)|).ToOutcome())
            && (!renames ==> client.log == old(client.log) && err == Nil)
  {
    if d.nameChanged {
      var appln := new Application(client, d.id, d.applicationName, d.locationName,
                                   CatalogType(d.catalogId, d.catalogVersion), []);
      err := appln.Rename();
      return;
    }
    err := Nil;
  }

  /** Expunges the application and clears the stored id, but only when
      the expunge succeeded; its error comes back unchanged. */
  method ResourceApplicationDelete(d: ResourceData, client: Client) returns (err: Outcome)
    modifies d, client
    ensures old(d.id) == "" ==> err == Nil && client.log == old(client.log)
    ensures old(d.id) != "" ==> && client.log == old(client.log) + [ExpungeRelease(old(d.id), old(d.id))]
                                && err == client.answer(|old(client.log)|).ToOutcome()
    ensures d.id == (if err.Nil? then "" else old(d.id))
  {
    var appln := new Application(client, d.id, "", "", "", []);
    err := appln.Delete();
    if err.Nil? {
      d.id := "";
    }
  }

  // ----- properties of create -----

  /** A failed create request is returned as is; nothing else is sent and
      the stored id keeps its old value. */
  lemma CreateFailureStoresNothing(waitForRunning: bool, answer: nat -> Result<string>, n: nat, oldId: string)
    requires answer(n).Err?
    ensures CreateEffect(waitForRunning, answer, n, oldId) == Effect(Fail(answer(n).error), oldId, 0)
  {
  }

  /** After a successful create request the new id is stored whatever the
      waits return, so it stays recorded when a wait fails; without
      `wait_for_running` nothing else is sent. */
  lemma IdRecordedBeforeWaiting(waitForRunning: bool, answer: nat -> Result<string>, n: nat, oldId: string)
    requires answer(n).Ok?
    ensures CreateEffect(waitForRunning, answer, n, oldId).id == answer(n).value
    ensures !waitForRunning ==> CreateEffect(waitForRunning, answer, n, oldId) == Effect(Nil, answer(n).value, 0)
  {
  }

  /** When the starting wait fails, the running wait never runs: the
      create returns the named error after exactly 20 polls (20 status
      lookups when the entity id is non-empty, none when it is empty). */
  lemma StartingFailureSkipsRunning(answer: nat -> Result<string>, n: nat, oldId: string)
    requires answer(n).Ok?
    requires StartingWait(answer(n).value, answer, n + 1).result.Fail?
    ensures CreateEffect(true, answer, n, oldId)
         == Effect(Fail(NotStarting), answer(n).value, StartingAttempts)
  {
    var eid := answer(n).value;
    var probe := Lift(StateProbe(eid, answer, n + 1, Starting));
    TallyFromFirstSettle(probe, StartingAttempts, 0);
    var k := FirstSettle(probe, StartingAttempts, 0);
    assert k == StartingAttempts;
  }

  /** A create that waits succeeds only if some starting poll saw `Starting`
      and, after the starting polls, some running poll saw `Running`. */
  lemma WaitedCreateSucceedsOnlyWhenRunning(answer: nat -> Result<string>, n: nat, oldId: string)
    requires answer(n).Ok?
    requires CreateEffect(true, answer, n, oldId).err.Nil?
    ensures var eid := answer(n).value;
            && StartingSeen(eid, answer, n + 1)
            && RunningSeen(eid, answer, n + 1 + LookupCount(eid, StartingWait(eid, answer, n + 1).attempts))
  {
    var eid := answer(n).value;
    var s := StartingWait(eid, answer, n + 1);
    assert s.result.Nil?;
    StartingWaitOutcome(eid, answer, n + 1);
    RunningWaitOutcome(eid, answer, n + 1 + LookupCount(eid, s.attempts));
  }

  /** A created application with an empty id never reads as starting: a
      waiting create fails with the named error and sends no lookups. */
  lemma EmptyEntityIdFailsWait(answer: nat -> Result<string>, n: nat, oldId: string)
    requires answer(n) == Ok("")
    ensures CreateEffect(true, answer, n, oldId) == Effect(Fail(NotStarting), "", StartingAttempts)
    ensures StatusLookups("", CreateEffect(true, answer, n, oldId).polls) == []
  {
    NoIdNeverStarts(answer, n + 1);
  }
}
