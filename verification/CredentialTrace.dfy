/**
 * Where credential rows come from and how they go, while the requests of all
 * users interleave (internal/httpapi/credential_handlers.go).
 */
module CredentialTrace {
  import opened Wrappers
  import opened Models
  import opened Credentials
  import opened Gateway

  /** The request asks for these secrets to be stored for the broker. */
  predicate Writes(body: Body, broker: Broker, secrets: Secrets) {
    match body
    case SaveCredential(name, Some(form)) => ParseBroker(name) == Some(broker) && form == secrets
    case ImportCredentials(env) => EnvSecrets(env, broker) == Some(secrets)
    case _ => false
  }

  predicate Deletes(body: Body, broker: Broker) {
    body.DeleteCredential? && ParseBroker(body.broker) == Some(broker)
  }

  ghost predicate WrittenBy(g: Gateway, key: (UserId, Broker), secrets: Secrets) {
    exists id :: id in g.requests && id.user == key.0 && Writes(g.requests[id].body, key.1, secrets)
  }

  ghost predicate DeletedBy(g: Gateway, key: (UserId, Broker)) {
    exists id :: id in g.requests && id.user == key.0 && Deletes(g.requests[id].body, key.1)
  }

  predicate Kept(before: Rows, after: Rows, key: (UserId, Broker)) {
    (key in before <==> key in after) && (key in before ==> before[key] == after[key])
  }

  /** A row that is there was there at the start or was asked for by its user, and one that has gone was deleted by its user. */
  ghost predicate Explained(start: Gateway, g: Gateway, key: (UserId, Broker)) {
    && (key in g.credentials ==>
          (key in start.credentials && start.credentials[key] == g.credentials[key])
          || WrittenBy(g, key, g.credentials[key]))
    && (key in start.credentials && key !in g.credentials ==> DeletedBy(g, key))
  }

  predicate ImportsItsOwn(r: Request) {
    r.stage.Importing? ==> r.body == ImportCredentials(r.stage.env)
  }

  ghost predicate ImportsAreTheirs(g: Gateway) {
    forall id :: id in g.requests ==> ImportsItsOwn(g.requests[id])
  }

  /** What a step does to a row, it does because its request asks for it. */
  predicate AsAsked(g: Gateway, m: Gateway, id: RequestId, key: (UserId, Broker))
    requires id in g.requests
  {
    || Kept(g.credentials, m.credentials, key)
    || (id.user == key.0 && key in m.credentials && Writes(g.requests[id].body, key.1, m.credentials[key]))
    || (id.user == key.0 && key !in m.credentials && Deletes(g.requests[id].body, key.1))
  }

  lemma BeginAsAsked(g: Gateway, id: RequestId, input: Input, key: (UserId, Broker))
    requires id in g.requests
    ensures AsAsked(g, Begin(g, id, input), id, key)
    ensures ImportsItsOwn(Begin(g, id, input).requests[id])
  {
    assert key == (key.0, key.1);
  }

  lemma ImportAsAsked(g: Gateway, id: RequestId, env: EnvConfig, already: seq<Broker>, todo: seq<Broker>,
                      imported: seq<Broker>, input: Input, key: (UserId, Broker))
    requires id in g.requests && g.requests[id].body == ImportCredentials(env)
    ensures AsAsked(g, ImportNext(g, id, env, already, todo, imported, input), id, key)
    ensures ImportsItsOwn(ImportNext(g, id, env, already, todo, imported, input).requests[id])
  {
    assert key == (key.0, key.1);
  }

  lemma StepAsAsked(g: Gateway, id: RequestId, input: Input, key: (UserId, Broker))
    requires id in g.requests && ImportsItsOwn(g.requests[id])
    ensures AsAsked(g, Step(g, id, input), id, key)
    ensures ImportsItsOwn(Step(g, id, input).requests[id])
  {
    match g.requests[id].stage {
      case Received => BeginAsAsked(g, id, input, key);
      case Importing(env, already, todo, imported) => ImportAsAsked(g, id, env, already, todo, imported, input, key);
      case _ =>
    }
  }

  /** Requests that have arrived stay, with their bodies. */
  lemma StaysExplained(start: Gateway, g: Gateway, m: Gateway, id: RequestId, key: (UserId, Broker))
    requires Explained(start, g, key) && Frame(g, m, id) && AsAsked(g, m, id, key)
    ensures Explained(start, m, key)
  {
    assert m.requests[id].body == g.requests[id].body;
    assert forall other :: other in g.requests ==> other in m.requests && m.requests[other].body == g.requests[other].body;
    if Kept(g.credentials, m.credentials, key) {
      RowStaysExplained(start, g, m, key);
    }
  }

  lemma RowStaysExplained(start: Gateway, g: Gateway, m: Gateway, key: (UserId, Broker))
    requires Explained(start, g, key) && Kept(g.credentials, m.credentials, key)
    requires forall other :: other in g.requests ==> other in m.requests && m.requests[other].body == g.requests[other].body
    ensures Explained(start, m, key)
  {
    if key in g.credentials && WrittenBy(g, key, g.credentials[key]) {
      var id :| id in g.requests && id.user == key.0 && Writes(g.requests[id].body, key.1, g.credentials[key]);
      assert Writes(m.requests[id].body, key.1, m.credentials[key]);
    }
    if DeletedBy(g, key) {
      var id :| id in g.requests && id.user == key.0 && Deletes(g.requests[id].body, key.1);
      assert Deletes(m.requests[id].body, key.1);
    }
  }

  /**
   * In every run of interleaved requests, each credential row was there at the
   * start or holds exactly what one of its own user's save or import requests
   * carried, and a row of the start that is gone was deleted by its own user.
   */
  lemma {:induction false} RowsFollowTheirUser(start: Gateway, events: seq<Event>, key: (UserId, Broker))
    requires start.requests == map[]
    ensures Explained(start, Run(start, events), key)
    ensures ImportsAreTheirs(Run(start, events))
  {
    if events != [] {
      var g, e := Run(start, events[..|events| - 1]), events[|events| - 1];
      RowsFollowTheirUser(start, events[..|events| - 1], key);
      if e.Advance? && e.id in g.requests {
        StepAsAsked(g, e.id, e.input, key);
        StaysExplained(start, g, Step(g, e.id, e.input), e.id, key);
      } else {
        RowStaysExplained(start, g, Apply(g, e), key);
      }
    }
  }

  // ---- What the replies mean ----

  /** One step of a request, and every row but this one as it was. */
  ghost predicate OtherRowsKept(before: Rows, after: Rows, key: (UserId, Broker)) {
    forall other: (UserId, Broker) :: other != key ==> Kept(before, after, other)
  }

  /**
   * A save answered 204 has stored exactly the secrets it carried, for its own
   * user and the broker it names, and nothing else; any other reply has changed
   * nothing. It is 400 exactly for a body that does not decode or an unknown
   * broker, and 500 exactly if the store fails otherwise.
   */
  lemma SaveRepliesMean(g: Gateway, id: RequestId, name: string, secrets: Option<Secrets>, input: Input)
    requires id in g.requests && g.requests[id] == Request(SaveCredential(name, secrets), Received)
    ensures var m := Step(g, id, input);
            var known := name in {"alpaca", "oanda", "questrade"};
            && (m.requests[id].stage == Done(BadRequest) <==> secrets.None? || !known)
            && (m.requests[id].stage == Done(InternalError) <==> secrets.Some? && known && !input.storeOk)
            && (m.requests[id].stage == Done(NoContent) <==> secrets.Some? && known && input.storeOk)
            && (m.requests[id].stage != Done(NoContent) ==> m.credentials == g.credentials)
            && (m.requests[id].stage == Done(NoContent) ==>
                  exists b: Broker :: Name(b) == name && (id.user, b) in m.credentials
                                      && m.credentials[(id.user, b)] == secrets.value
                                      && OtherRowsKept(g.credentials, m.credentials, (id.user, b)))
  {
    KnownBrokerNames(name);
    assert Step(g, id, input) == SaveCredentials(g, id, name, secrets, input);
    if ParseBroker(name).Some? {
      var b, m := ParseBroker(name).value, Step(g, id, input);
      assert Name(b) == name;
      assert m.requests[id].stage == Done(NoContent) ==> OtherRowsKept(g.credentials, m.credentials, (id.user, b));
    }
  }

  lemma KnownBrokerNames(name: string)
    ensures name in {"alpaca", "oanda", "questrade"} <==> ParseBroker(name).Some?
  {
    assert ParseBroker(Name(Alpaca)) == Some(Alpaca) && ParseBroker(Name(Oanda)) == Some(Oanda);
    assert ParseBroker(Name(Questrade)) == Some(Questrade);
    assert ParseBroker(name).Some? ==> Name(ParseBroker(name).value) == name;
  }

  /**
   * After a delete answered 204 its user has no row for the broker it names,
   * and every other row is as it was; any other reply has changed nothing. It
   * is 400 exactly for an empty name, and 500 exactly if the store fails; an
   * unknown name is answered 204.
   */
  lemma DeleteRepliesMean(g: Gateway, id: RequestId, name: string, input: Input, b: Broker)
    requires id in g.requests && g.requests[id] == Request(DeleteCredential(name), Received)
    ensures var m := Step(g, id, input);
            && (m.requests[id].stage == Done(BadRequest) <==> name == "")
            && (m.requests[id].stage == Done(InternalError) <==> name != "" && !input.storeOk)
            && (m.requests[id].stage == Done(NoContent) <==> name != "" && input.storeOk)
            && (m.requests[id].stage != Done(NoContent) || Name(b) != name ==>
                  Kept(g.credentials, m.credentials, (id.user, b)))
            && (m.requests[id].stage == Done(NoContent) && Name(b) == name ==> (id.user, b) !in m.credentials)
            && (forall key: (UserId, Broker) :: key.0 != id.user ==> Kept(g.credentials, m.credentials, key))
  {
    assert Step(g, id, input) == DeleteCredentials(g, id, name, input);
    assert ParseBroker(name) == Some(b) <==> Name(b) == name;
  }

  /** A write of this row: a step of its user's save of that broker, or import of it. */
  predicate MayWrite(g: Gateway, e: Event, key: (UserId, Broker)) {
    e.Advance? && e.id in g.requests && e.id.user == key.0
    && match g.requests[e.id].body
       case SaveCredential(name, _) => Name(key.1) == name
       case ImportCredentials(_) => true
       case _ => false
  }

  predicate NobodyWrites(g: Gateway, events: seq<Event>, key: (UserId, Broker))
    decreases |events|
  {
    events == [] || (!MayWrite(g, events[0], key) && NobodyWrites(Apply(g, events[0]), events[1..], key))
  }

  lemma OtherStepsStore(g: Gateway, e: Event, key: (UserId, Broker))
    requires ImportsAreTheirs(g) && key !in g.credentials && !MayWrite(g, e, key)
    ensures key !in Apply(g, e).credentials && ImportsAreTheirs(Apply(g, e))
  {
    if e.Advance? && e.id in g.requests {
      StepAsAsked(g, e.id, e.input, key);
      assert Name(key.1) == Name(key.1);
    }
  }

  /** And once it is gone it stays gone, whatever others do, until the user saves that broker or imports again. */
  lemma {:induction false} GoneStaysGone(g: Gateway, events: seq<Event>, key: (UserId, Broker))
    requires ImportsAreTheirs(g) && key !in g.credentials && NobodyWrites(g, events, key)
    ensures key !in Run(g, events).credentials
    decreases |events|
  {
    if events != [] {
      OtherStepsStore(g, events[0], key);
      GoneStaysGone(Apply(g, events[0]), events[1..], key);
      RunFirst(g, events[0], events[1..]);
      assert [events[0]] + events[1..] == events;
    }
  }

  /** An imported Questrade token is the configured token that the user's next Questrade call starts from. */
  lemma ImportedTokenIsConfigured(g: Gateway, rows: Rows, id: RequestId, env: EnvConfig, failing: set<Broker>, input: Input)
    requires id in g.requests && g.requests[id] == Request(QuestradeCall, Received) && input.storeOk
    requires (id.user, Questrade) !in rows && env.questradeToken != "" && Questrade !in failing
    requires g.credentials == ImportRows(rows, id.user, env, failing)
    ensures Step(g, id, input).requests[id].stage == NeedToken(env.questradeToken)
  {
    ImportStores(rows, id.user, env, failing);
    assert Step(g, id, input) == BeginQuestrade(g, id, input);
  }

  /** A Questrade call is refused exactly if the store fails or the user has not connected the broker. */
  lemma QuestradeRefusalsMean(g: Gateway, id: RequestId, input: Input)
    requires id in g.requests && g.requests[id] == Request(QuestradeCall, Received)
    ensures var stage := Step(g, id, input).requests[id].stage;
            && (stage == Done(InternalError) <==> !input.storeOk)
            && (stage == Done(NotConnected) <==> input.storeOk && (id.user, Questrade) !in g.credentials)
            && (stage.NeedToken? <==> input.storeOk && (id.user, Questrade) in g.credentials)
  {
    assert Step(g, id, input) == BeginQuestrade(g, id, input);
  }

  /** An import that cannot list the user's brokers is answered 500 and imports nothing. */
  lemma ImportRefusalMeans(g: Gateway, id: RequestId, env: EnvConfig, input: Input)
    requires id in g.requests && g.requests[id] == Request(ImportCredentials(env), Received)
    ensures var m := Step(g, id, input);
            m.credentials == g.credentials && (m.requests[id].stage == Done(InternalError) <==> !input.storeOk)
  {
    assert Step(g, id, input) == BeginImport(g, id, env, input);
  }
}
