/**
 * Users do not affect each other: two users never see each other's accounts,
 * as the README of the gateway repository promises. The requests of all users
 * interleave in Gateway.
 */
module Isolation {
  import opened Wrappers
  import opened Models
  import opened Seqs
  import opened Credentials
  import opened Gateway

  function RowsOf(user: UserId): Row -> bool {
    (row: Row) => row.order.userId == user
  }

  /** The user's order history. */
  function History(g: Gateway, user: UserId): seq<Row> {
    Filter(g.orders, RowsOf(user))
  }

  /**
   * In every run the history is exactly the rows of the user's own requests,
   * however often and nothing else.
   */
  lemma HistoryIsOwn(start: Gateway, events: seq<Event>, user: UserId, row: Row)
    requires Initial(start)
    ensures var g := Run(start, events);
            multiset(History(g, user))[row] == if row.id.user == user then multiset(g.orders)[row] else 0
  {
    var g := Run(start, events);
    FilterCounts(g.orders, RowsOf(user), row);
    if row in g.orders {
      RowsBelongToRequesters(start, events, row);
    }
  }

  /** The credential and token rows under a key agree. */
  predicate SameRows(g1: Gateway, g2: Gateway, key: (UserId, Broker)) {
    && (key in g1.credentials <==> key in g2.credentials)
    && (key in g1.credentials ==> g1.credentials[key] == g2.credentials[key])
    && (key in g1.tokens <==> key in g2.tokens)
    && (key in g1.tokens ==> g1.tokens[key] == g2.tokens[key])
  }

  /** Two gateways look the same to a user. */
  ghost predicate SameFor(user: UserId, g1: Gateway, g2: Gateway) {
    && (forall b: Broker :: SameRows(g1, g2, (user, b)))
    && (forall id: RequestId :: id.user == user ==> (id in g1.requests <==> id in g2.requests))
    && (forall id: RequestId :: id.user == user && id in g1.requests ==> g1.requests[id] == g2.requests[id])
    && g1.dayTrades == g2.dayTrades
    && History(g1, user) == History(g2, user)
  }

  /** An order about to be persisted carries its requester's id. */
  ghost predicate Stamped(g: Gateway) {
    forall id :: id in g.requests && g.requests[id].stage.NeedPersist? ==> g.requests[id].stage.placed.userId == id.user
  }

  lemma StepKeepsStamped(g: Gateway, id: RequestId, input: Input)
    requires Stamped(g) && id in g.requests
    ensures Stamped(Step(g, id, input))
  {
    var stage := g.requests[id].stage;
    if !stage.NeedPlace? && !stage.NeedPersist? && !stage.NeedReply? {
      OthersKeepLogs(g, id, input);
    }
  }

  /** The rows a step adds to the ledger. */
  lemma StepHistory(g: Gateway, id: RequestId, input: Input, user: UserId)
    requires Stamped(g) && id in g.requests
    ensures var stage := g.requests[id].stage;
            var added := if stage.NeedPersist? && input.storeOk && id.user == user then [Row(id, stage.placed)] else [];
            History(Step(g, id, input), user) == History(g, user) + added
  {
    var stage := g.requests[id].stage;
    if stage.NeedPersist? {
      FilterAppend(g.orders, Row(id, stage.placed), RowsOf(user));
    } else if !stage.NeedPlace? && !stage.NeedReply? {
      OthersKeepLogs(g, id, input);
    }
  }

  lemma WritesOwnRows(g: Gateway, id: RequestId, name: string, secrets: Option<Secrets>, token: string, access: Access,
                      more: bool, input: Input, key: (UserId, Broker))
    requires id in g.requests && key.0 != id.user
    ensures SameRows(SaveCredentials(g, id, name, secrets, input), g, key)
    ensures SameRows(DeleteCredentials(g, id, name, input), g, key)
    ensures SameRows(SaveToken(g, id, token, access, more, input), g, key)
  {
    assert forall b: Broker :: key != (id.user, b);
  }

  lemma ImportsOwnRows(g: Gateway, id: RequestId, env: EnvConfig, already: seq<Broker>, todo: seq<Broker>,
                       imported: seq<Broker>, input: Input, key: (UserId, Broker))
    requires id in g.requests && key.0 != id.user
    ensures SameRows(ImportNext(g, id, env, already, todo, imported, input), g, key)
  {
    assert forall b: Broker :: key != (id.user, b);
  }

  lemma BeginTouchesOwnRows(g: Gateway, id: RequestId, input: Input, key: (UserId, Broker))
    requires id in g.requests && key.0 != id.user
    ensures SameRows(Begin(g, id, input), g, key)
  {
    match g.requests[id].body {
      case SaveCredential(name, secrets) => WritesOwnRows(g, id, name, secrets, "", Access("", 0), false, input, key);
      case DeleteCredential(name) => WritesOwnRows(g, id, name, None, "", Access("", 0), false, input, key);
      case _ =>
    }
  }

  /** Which credentials and tokens a step writes: its own user's. */
  lemma StepTouchesOwnRows(g: Gateway, id: RequestId, input: Input, key: (UserId, Broker))
    requires id in g.requests && key.0 != id.user
    ensures SameRows(Step(g, id, input), g, key)
  {
    match g.requests[id].stage {
      case Received => BeginTouchesOwnRows(g, id, input, key);
      case Importing(env, already, todo, imported) => ImportsOwnRows(g, id, env, already, todo, imported, input, key);
      case NeedTokenSave(token, access, more) => WritesOwnRows(g, id, "", None, token, access, more, input, key);
      case _ =>
    }
  }

  /** A step of somebody else's request is invisible. */
  lemma OthersInvisible(g: Gateway, id: RequestId, input: Input, user: UserId)
    requires Stamped(g) && id in g.requests && id.user != user
    ensures SameFor(user, Step(g, id, input), g)
  {
    StepHistory(g, id, input, user);
    forall b: Broker
      ensures SameRows(Step(g, id, input), g, (user, b))
    {
      StepTouchesOwnRows(g, id, input, (user, b));
    }
  }

  lemma SameConnectedList(user: UserId, g1: Gateway, g2: Gateway)
    requires SameFor(user, g1, g2)
    ensures ConnectedList(g1.credentials, user) == ConnectedList(g2.credentials, user)
  {
    assert SameRows(g1, g2, (user, Alpaca)) && SameRows(g1, g2, (user, Oanda)) && SameRows(g1, g2, (user, Questrade));
  }

  predicate SameStage(g1: Gateway, g2: Gateway, id: RequestId) {
    id in g1.requests && id in g2.requests && g1.requests[id] == g2.requests[id]
  }

  /** After a step: the same stage, and the same rows for this broker. */
  predicate Agree(g1: Gateway, g2: Gateway, id: RequestId, b: Broker) {
    SameStage(g1, g2, id) && SameRows(g1, g2, (id.user, b))
  }

  lemma OwnBeginOrder(g1: Gateway, g2: Gateway, id: RequestId, form: Option<OrderForm>, input: Input, b: Broker)
    requires SameStage(g1, g2, id) && SameRows(g1, g2, (id.user, b))
    requires Validate(form).Some? ==> SameRows(g1, g2, (id.user, Validate(form).value.broker))
    ensures Agree(BeginOrder(g1, id, form, input), BeginOrder(g2, id, form, input), id, b)
  {
  }

  lemma OwnSave(g1: Gateway, g2: Gateway, id: RequestId, name: string, secrets: Option<Secrets>, input: Input, b: Broker)
    requires SameStage(g1, g2, id) && SameRows(g1, g2, (id.user, b))
    ensures Agree(SaveCredentials(g1, id, name, secrets, input), SaveCredentials(g2, id, name, secrets, input), id, b)
  {
  }

  lemma OwnDelete(g1: Gateway, g2: Gateway, id: RequestId, name: string, input: Input, b: Broker)
    requires SameStage(g1, g2, id) && SameRows(g1, g2, (id.user, b))
    ensures Agree(DeleteCredentials(g1, id, name, input), DeleteCredentials(g2, id, name, input), id, b)
  {
  }

  lemma OwnImport(g1: Gateway, g2: Gateway, id: RequestId, env: EnvConfig, input: Input, b: Broker)
    requires SameStage(g1, g2, id) && SameRows(g1, g2, (id.user, b))
    requires ConnectedList(g1.credentials, id.user) == ConnectedList(g2.credentials, id.user)
    ensures Agree(BeginImport(g1, id, env, input), BeginImport(g2, id, env, input), id, b)
  {
  }

  lemma OwnQuestrade(g1: Gateway, g2: Gateway, id: RequestId, input: Input, b: Broker)
    requires SameStage(g1, g2, id) && SameRows(g1, g2, (id.user, b)) && SameRows(g1, g2, (id.user, Questrade))
    ensures Agree(BeginQuestrade(g1, id, input), BeginQuestrade(g2, id, input), id, b)
  {
  }

  /** How a request begins depends only on what its user sees. */
  lemma OwnBegin(g1: Gateway, g2: Gateway, id: RequestId, input: Input, b: Broker)
    requires SameStage(g1, g2, id) && forall c: Broker :: SameRows(g1, g2, (id.user, c))
    ensures Agree(Begin(g1, id, input), Begin(g2, id, input), id, b)
  {
    assert SameRows(g1, g2, (id.user, b)) && SameRows(g1, g2, (id.user, Questrade));
    match g1.requests[id].body {
      case CreateOrder(form) => OwnBeginOrder(g1, g2, id, form, input, b);
      case SaveCredential(name, secrets) => OwnSave(g1, g2, id, name, secrets, input, b);
      case DeleteCredential(name) => OwnDelete(g1, g2, id, name, input, b);
      case ImportCredentials(env) =>
        assert SameRows(g1, g2, (id.user, Alpaca)) && SameRows(g1, g2, (id.user, Oanda));
        OwnImport(g1, g2, id, env, input, b);
      case QuestradeCall => OwnQuestrade(g1, g2, id, input, b);
    }
  }

  lemma OwnImportNext(g1: Gateway, g2: Gateway, id: RequestId, env: EnvConfig, already: seq<Broker>, todo: seq<Broker>,
                      imported: seq<Broker>, input: Input, b: Broker)
    requires SameStage(g1, g2, id) && SameRows(g1, g2, (id.user, b))
    ensures Agree(ImportNext(g1, id, env, already, todo, imported, input), ImportNext(g2, id, env, already, todo, imported, input), id, b)
  {
  }

  lemma OwnFetchAccount(g1: Gateway, g2: Gateway, id: RequestId, order: CheckedOrder, input: Input, b: Broker)
    requires SameStage(g1, g2, id) && SameRows(g1, g2, (id.user, b))
    ensures Agree(FetchAccount(g1, id, order, input), FetchAccount(g2, id, order, input), id, b)
  {
  }

  lemma OwnFetch(g1: Gateway, g2: Gateway, id: RequestId, order: CheckedOrder, account: Account, input: Input, b: Broker)
    requires SameStage(g1, g2, id) && SameRows(g1, g2, (id.user, b)) && g1.dayTrades == g2.dayTrades
    ensures Agree(FetchTrades(g1, id, order, account, input), FetchTrades(g2, id, order, account, input), id, b)
  {
  }

  lemma OwnCheck(g1: Gateway, g2: Gateway, id: RequestId, order: CheckedOrder, evidence: Evidence, b: Broker)
    requires SameStage(g1, g2, id) && SameRows(g1, g2, (id.user, b))
    ensures Agree(Check(g1, id, order, evidence), Check(g2, id, order, evidence), id, b)
  {
  }

  lemma OwnPlace(g1: Gateway, g2: Gateway, id: RequestId, order: CheckedOrder, evidence: Option<Evidence>, input: Input, b: Broker)
    requires SameStage(g1, g2, id) && SameRows(g1, g2, (id.user, b))
    ensures Agree(Place(g1, id, order, evidence, input), Place(g2, id, order, evidence, input), id, b)
  {
  }

  lemma OwnTokens(g1: Gateway, g2: Gateway, id: RequestId, configured: string, input: Input, b: Broker)
    requires SameStage(g1, g2, id) && SameRows(g1, g2, (id.user, b)) && SameRows(g1, g2, (id.user, Questrade))
    ensures Agree(LoadToken(g1, id, configured, input), LoadToken(g2, id, configured, input), id, b)
  {
  }

  lemma OwnExchange(g1: Gateway, g2: Gateway, id: RequestId, token: string, more: bool, input: Input, b: Broker)
    requires Agree(g1, g2, id, b)
    ensures Agree(ExchangeToken(g1, id, token, more, input), ExchangeToken(g2, id, token, more, input), id, b)
  {
  }

  lemma OwnReceive(g1: Gateway, g2: Gateway, id: RequestId, grant: Grant, more: bool, input: Input, b: Broker)
    requires Agree(g1, g2, id, b)
    ensures Agree(ReceiveToken(g1, id, grant, more, input), ReceiveToken(g2, id, grant, more, input), id, b)
  {
  }

  lemma OwnAnswer(g1: Gateway, g2: Gateway, id: RequestId, token: string, access: Access, more: bool, input: Input,
                 b: Broker)
    requires Agree(g1, g2, id, b)
    ensures Agree(TakeAnswer(g1, id, token, access, more, input), TakeAnswer(g2, id, token, access, more, input), id, b)
  {
  }

  lemma OwnTokenSave(g1: Gateway, g2: Gateway, id: RequestId, token: string, access: Access, more: bool, input: Input,
                 b: Broker)
    requires SameStage(g1, g2, id) && SameRows(g1, g2, (id.user, b))
    ensures Agree(SaveToken(g1, id, token, access, more, input), SaveToken(g2, id, token, access, more, input), id, b)
  {
  }

  lemma OwnPut(g1: Gateway, g2: Gateway, id: RequestId, stage: Stage, b: Broker)
    requires Agree(g1, g2, id, b)
    ensures Agree(Put(g1, id, stage), Put(g2, id, stage), id, b)
  {
  }

  lemma OwnPersist(g1: Gateway, g2: Gateway, id: RequestId, order: Order, input: Input, b: Broker)
    requires Agree(g1, g2, id, b)
    ensures Agree(Persist(g1, id, order, input), Persist(g2, id, order, input), id, b)
    ensures Agree(ReplyCreated(g1, id, order), ReplyCreated(g2, id, order), id, b)
  {
  }

  lemma OwnOrderStep(g1: Gateway, g2: Gateway, id: RequestId, stage: Stage, input: Input, b: Broker)
    requires Agree(g1, g2, id, b) && g1.dayTrades == g2.dayTrades && Placing(stage)
    ensures Agree(OrderStep(g1, id, stage, input), OrderStep(g2, id, stage, input), id, b)
  {
    match stage {
      case NeedAccount(order) => OwnFetchAccount(g1, g2, id, order, input, b);
      case NeedTrades(order, account) => OwnFetch(g1, g2, id, order, account, input, b);
      case NeedGate(order, account, trades, at) =>
        OwnCheck(g1, g2, id, order, Evidence(account, trades, at, input.now), b);
      case NeedPlace(order, evidence) => OwnPlace(g1, g2, id, order, evidence, input, b);
      case NeedPersist(order) => OwnPersist(g1, g2, id, order, input, b);
      case NeedReply(order) => OwnPersist(g1, g2, id, order, input, b);
    }
  }

  lemma OwnTokenStep(g1: Gateway, g2: Gateway, id: RequestId, stage: Stage, input: Input, b: Broker)
    requires Agree(g1, g2, id, b) && SameRows(g1, g2, (id.user, Questrade)) && Rotating(stage)
    ensures Agree(TokenStep(g1, id, stage, input), TokenStep(g2, id, stage, input), id, b)
  {
    match stage {
      case NeedToken(configured) => OwnTokens(g1, g2, id, configured, input, b);
      case NeedExchange(token, more) => OwnPut(g1, g2, id, Exchanging(token, more), b);
      case Exchanging(token, more) => OwnExchange(g1, g2, id, token, more, input, b);
      case NeedTokenReply(_, grant, more) => OwnReceive(g1, g2, id, grant, more, input, b);
      case NeedTokenSave(token, access, more) => OwnTokenSave(g1, g2, id, token, access, more, input, b);
      case NeedAnswer(token, access, more) => OwnAnswer(g1, g2, id, token, access, more, input, b);
    }
  }

  /** What one step does to the request itself and to its user's rows depends only on what that user sees. */
  lemma OwnStep(g1: Gateway, g2: Gateway, id: RequestId, input: Input, b: Broker)
    requires SameStage(g1, g2, id) && forall c: Broker :: SameRows(g1, g2, (id.user, c))
    requires g1.dayTrades == g2.dayTrades
    ensures Agree(Step(g1, id, input), Step(g2, id, input), id, b)
  {
    assert SameRows(g1, g2, (id.user, b)) && SameRows(g1, g2, (id.user, Questrade));
    if Placing(g1.requests[id].stage) {
      OwnOrderStep(g1, g2, id, g1.requests[id].stage, input, b);
    } else if Rotating(g1.requests[id].stage) {
      OwnTokenStep(g1, g2, id, g1.requests[id].stage, input, b);
    } else {
      match g1.requests[id].stage {
        case Received => OwnBegin(g1, g2, id, input, b);
        case Importing(env, already, todo, imported) =>
          OwnImportNext(g1, g2, id, env, already, todo, imported, input, b);
        case Done(_) =>
        case Dead(_) =>
      }
    }
  }

  /** Gateways that agreed on a user and changed one of its requests alike still agree. */
  lemma SameAfter(g1: Gateway, g2: Gateway, m1: Gateway, m2: Gateway, id: RequestId)
    requires SameFor(id.user, g1, g2) && Frame(g1, m1, id) && Frame(g2, m2, id)
    requires forall b: Broker :: Agree(m1, m2, id, b)
    requires History(m1, id.user) == History(m2, id.user)
    ensures SameFor(id.user, m1, m2)
  {
    assert Agree(m1, m2, id, Alpaca);
    forall b: Broker
      ensures SameRows(m1, m2, (id.user, b))
    {
      assert Agree(m1, m2, id, b);
    }
  }

  /** A step of the user's own request leads from gateways that look the same to gateways that look the same. */
  lemma OwnStepConsistent(g1: Gateway, g2: Gateway, id: RequestId, input: Input)
    requires SameFor(id.user, g1, g2) && Stamped(g1) && Stamped(g2) && id in g1.requests
    ensures SameFor(id.user, Step(g1, id, input), Step(g2, id, input))
  {
    StepHistory(g1, id, input, id.user);
    StepHistory(g2, id, input, id.user);
    forall b: Broker
      ensures Agree(Step(g1, id, input), Step(g2, id, input), id, b)
    {
      OwnStep(g1, g2, id, input, b);
    }
    SameAfter(g1, g2, Step(g1, id, input), Step(g2, id, input), id);
  }

  function EventsOf(user: UserId): Event -> bool {
    (e: Event) => e.id.user == user
  }

  /** The run without anybody else's requests. */
  function Alone(events: seq<Event>, user: UserId): seq<Event> {
    Filter(events, EventsOf(user))
  }

  lemma {:induction false} RunKeepsStamped(g: Gateway, events: seq<Event>)
    requires Stamped(g)
    ensures Stamped(Run(g, events))
  {
    if events != [] {
      var before, e := Run(g, events[..|events| - 1]), events[|events| - 1];
      RunKeepsStamped(g, events[..|events| - 1]);
      if e.Advance? && e.id in before.requests {
        StepKeepsStamped(before, e.id, e.input);
      }
    }
  }

  /** Two gateways whose tables have not changed agree as before if the user's requests do. */
  lemma SameTablesSame(user: UserId, g1: Gateway, g2: Gateway, m1: Gateway, m2: Gateway)
    requires SameFor(user, g1, g2) && SameTables(g1, m1) && SameTables(g2, m2)
    requires m1.orders == g1.orders && m2.orders == g2.orders
    requires m1.dayTrades == g1.dayTrades && m2.dayTrades == g2.dayTrades
    requires forall id: RequestId :: id.user == user ==> (id in m1.requests <==> id in m2.requests)
    requires forall id: RequestId :: id.user == user && id in m1.requests ==> m1.requests[id] == m2.requests[id]
    ensures SameFor(user, m1, m2)
  {
    forall b: Broker
      ensures SameRows(m1, m2, (user, b))
    {
      assert SameRows(g1, g2, (user, b));
    }
  }

  lemma ArriveConsistent(g1: Gateway, g2: Gateway, id: RequestId, body: Body, user: UserId)
    requires SameFor(user, g1, g2)
    ensures SameFor(user, Apply(g1, Arrive(id, body)), if id.user == user then Apply(g2, Arrive(id, body)) else g2)
  {
    SameTablesSame(user, g1, g2, Apply(g1, Arrive(id, body)), if id.user == user then Apply(g2, Arrive(id, body)) else g2);
  }

  lemma AdvanceConsistent(g1: Gateway, g2: Gateway, id: RequestId, input: Input, user: UserId)
    requires SameFor(user, g1, g2) && Stamped(g1) && Stamped(g2)
    ensures SameFor(user, Apply(g1, Advance(id, input)), if id.user == user then Apply(g2, Advance(id, input)) else g2)
  {
    if id in g1.requests {
      if id.user == user {
        OwnStepConsistent(g1, g2, id, input);
      } else {
        OthersInvisible(g1, id, input, user);
        SameTransitive(user, Step(g1, id, input), g1, g2);
      }
    }
  }

  /** A restart cuts off a user's requests alike, and somebody else's invisibly. */
  lemma DieConsistent(g1: Gateway, g2: Gateway, id: RequestId, user: UserId)
    requires SameFor(user, g1, g2)
    ensures SameFor(user, Apply(g1, Die(id)), if id.user == user then Apply(g2, Die(id)) else g2)
  {
    SameTablesSame(user, g1, g2, Apply(g1, Die(id)), if id.user == user then Apply(g2, Die(id)) else g2);
  }

  lemma SameTransitive(user: UserId, g1: Gateway, g2: Gateway, g3: Gateway)
    requires SameFor(user, g1, g2) && SameFor(user, g2, g3)
    ensures SameFor(user, g1, g3)
  {
    forall b: Broker
      ensures SameRows(g1, g3, (user, b))
    {
      assert SameRows(g1, g2, (user, b)) && SameRows(g2, g3, (user, b));
    }
  }

  lemma ApplyConsistent(g1: Gateway, g2: Gateway, e: Event, user: UserId)
    requires SameFor(user, g1, g2) && Stamped(g1) && Stamped(g2)
    ensures SameFor(user, Apply(g1, e), if e.id.user == user then Apply(g2, e) else g2)
  {
    match e {
      case Arrive(id, body) => ArriveConsistent(g1, g2, id, body, user);
      case Advance(id, input) => AdvanceConsistent(g1, g2, id, input, user);
      case Die(id) => DieConsistent(g1, g2, id, user);
    }
  }

  /**
   * For every trace of interleaved requests: with all requests of other users
   * taken out, and the inputs of the user's own steps as they were, the user's
   * credential rows, token rows, order history, connected brokers and replies
   * come out the same.
   */
  lemma {:induction false} OthersDoNotMatter(g: Gateway, events: seq<Event>, user: UserId)
    requires Stamped(g)
    ensures SameFor(user, Run(g, events), Run(g, Alone(events, user)))
    ensures ConnectedList(Run(g, events).credentials, user)
         == ConnectedList(Run(g, Alone(events, user)).credentials, user)
  {
    if events != [] {
      var init, e := events[..|events| - 1], events[|events| - 1];
      OthersDoNotMatter(g, init, user);
      RunKeepsStamped(g, init);
      RunKeepsStamped(g, Alone(init, user));
      ApplyConsistent(Run(g, init), Run(g, Alone(init, user)), e, user);
      if e.id.user == user {
        assert Alone(events, user) == Alone(init, user) + [e];
        assert (Alone(init, user) + [e])[..|Alone(init, user)|] == Alone(init, user);
      } else {
        assert Alone(events, user) == Alone(init, user);
      }
    }
    SameConnectedList(user, Run(g, events), Run(g, Alone(events, user)));
  }
}
