/**
 * What becomes of one order request that runs from start to finish
 * (internal/httpapi/order_handlers.go lines 28-122), in terms of the form, the
 * tables and the answers of the environment.
 */
module OrderOutcomes {
  import opened Wrappers
  import opened Calendar
  import opened Models
  import opened Seqs
  import opened PdtGate
  import opened Credentials
  import opened Gateway
  import opened OrderServer

  /** What the handler demands of an order form. */
  predicate WellFormed(f: OrderForm) {
    && f.broker in {"alpaca", "oanda", "questrade"}
    && f.side in {"buy", "sell"}
    && f.kind in {"market", "limit"}
    && f.symbol != ""
    && f.quantity > 0.0
    && (f.kind == "limit" ==> f.limitPrice.Some?)
  }

  /** A well-formed form for a broker that the user has connected, and the store says so. */
  predicate Acceptable(g: Gateway, id: RequestId, form: Option<OrderForm>, env: Environment) {
    form.Some? && WellFormed(form.value) && env.loadOk && Connected(g, id, form.value.broker)
  }

  predicate Connected(g: Gateway, id: RequestId, name: string) {
    exists b: Broker :: Name(b) == name && (id.user, b) in g.credentials
  }

  predicate IsForAlpaca(form: Option<OrderForm>) {
    form.Some? && form.value.broker == "alpaca"
  }

  predicate FactsKnown(env: Environment) {
    env.account.Success? && env.tradesOk
  }

  /** What the gate decides on the facts of this request. */
  predicate RestrictedNow(g: Gateway, id: RequestId, env: Environment)
    requires env.account.Success?
  {
    Decision(env.account.value, id.user, Alpaca, RecentTrades(g.dayTrades, id.user, Alpaca, env.fetchedAt),
             env.checkedAt).restricted
  }

  predicate GatePasses(g: Gateway, id: RequestId, form: Option<OrderForm>, env: Environment) {
    IsForAlpaca(form) ==> FactsKnown(env) && !RestrictedNow(g, id, env)
  }

  // ---- Acceptance ----

  lemma KnownNames(name: string)
    ensures name in {"alpaca", "oanda", "questrade"} <==> ParseBroker(name).Some?
    ensures Name(Alpaca) == "alpaca"
  {
    assert ParseBroker(Name(Alpaca)) == Some(Alpaca) && ParseBroker(Name(Oanda)) == Some(Oanda);
    assert ParseBroker(Name(Questrade)) == Some(Questrade);
    assert ParseBroker(name).Some? ==> Name(ParseBroker(name).value) == name;
  }

  /** Validation accepts the well-formed forms, and what it accepts says what the form says. */
  lemma ValidIffWellFormed(form: Option<OrderForm>)
    ensures Validate(form).Some? <==> form.Some? && WellFormed(form.value)
    ensures ForAlpaca(form) <==> Validate(form).Some? && IsForAlpaca(form)
    ensures Validate(form).Some? ==>
      var order, f := Validate(form).value, form.value;
      && Name(order.broker) == f.broker
      && (order.side == Buy <==> f.side == "buy") && (order.side == Sell <==> f.side == "sell")
      && (order.kind == Market <==> f.kind == "market") && (order.kind == Limit <==> f.kind == "limit")
      && order.symbol == f.symbol && order.quantity == f.quantity && order.limitPrice == f.limitPrice
  {
    if form.Some? {
      KnownNames(form.value.broker);
    }
  }

  /**
   * In every run of interleaved requests, each call to a broker carries the
   * order that the form of its own request asks for: the broker, side and kind
   * it names, and its symbol, quantity and limit price.
   */
  lemma CallsSayWhatFormsSay(start: Gateway, events: seq<Event>, call: Call)
    requires Initial(start) && call in Run(start, events).calls
    ensures call.id in Run(start, events).requests
    ensures var body := Run(start, events).requests[call.id].body;
            && body.CreateOrder? && body.form.Some? && WellFormed(body.form.value)
            && Name(call.order.broker) == body.form.value.broker
            && (call.order.side == Buy <==> body.form.value.side == "buy")
            && (call.order.side == Sell <==> body.form.value.side == "sell")
            && (call.order.kind == Market <==> body.form.value.kind == "market")
            && (call.order.kind == Limit <==> body.form.value.kind == "limit")
            && call.order.symbol == body.form.value.symbol
            && call.order.quantity == body.form.value.quantity
            && call.order.limitPrice == body.form.value.limitPrice
  {
    RunKeepsSound(start, events);
    var g := Run(start, events);
    var i :| 0 <= i < |g.calls| && g.calls[i] == call;
    assert CallSound(g, g.calls[i]);
    ValidIffWellFormed(g.requests[call.id].body.form);
  }

  lemma ConnectedIff(g: Gateway, id: RequestId, name: string, broker: Broker)
    requires Name(broker) == name
    ensures Connected(g, id, name) <==> (id.user, broker) in g.credentials
  {
    assert ParseBroker(name) == Some(broker);
    assert forall b: Broker :: Name(b) == name ==> ParseBroker(name) == Some(b);
  }

  function AcceptEvents(id: RequestId, form: Option<OrderForm>, env: Environment): seq<Event> {
    [Arrive(id, CreateOrder(form)), Advance(id, LoadInput(env))]
  }

  lemma AcceptRuns(g: Gateway, id: RequestId, form: Option<OrderForm>, env: Environment)
    requires id !in g.requests
    ensures Run(g, AcceptEvents(id, form, env)) == BeginOrder(Apply(g, Arrive(id, CreateOrder(form))), id, form, LoadInput(env))
  {
    var e1, e2 := Arrive(id, CreateOrder(form)), Advance(id, LoadInput(env));
    RunFirst(g, e1, [e2]);
    RunFirst(Apply(g, e1), e2, []);
    assert [e1] + [e2] == [e1, e2] && [e2] + [] == [e2];
  }

  /** The reply to a request that is not acceptable. */
  function Refusal(form: Option<OrderForm>, env: Environment): Reply {
    if form.None? || !WellFormed(form.value) then BadRequest else if !env.loadOk then InternalError else NotConnected
  }

  lemma Accepts(g: Gateway, id: RequestId, form: Option<OrderForm>, env: Environment)
    requires id !in g.requests
    ensures var m := Run(g, AcceptEvents(id, form, env));
            && SameLogs(g, m) && m.dayTrades == g.dayTrades && id in m.requests
            && if Acceptable(g, id, form, env)
               then Validate(form).Some?
                    && m.requests[id].stage == if IsForAlpaca(form) then NeedAccount(Validate(form).value)
                                               else NeedPlace(Validate(form).value, None)
               else m.requests[id].stage == Done(Refusal(form, env))
  {
    AcceptRuns(g, id, form, env);
    ValidIffWellFormed(form);
    if Validate(form).Some? {
      ConnectedIff(g, id, form.value.broker, Validate(form).value.broker);
    }
  }

  // ---- The gate ----

  function GateReply(g: Gateway, id: RequestId, env: Environment): Option<Reply> {
    if env.account.Failure? then Some(AccountFetchFailed)
    else if !env.tradesOk then Some(InternalError)
    else if RestrictedNow(g, id, env) then Some(Restricted)
    else None
  }

  lemma GateRuns(g: Gateway, id: RequestId, order: CheckedOrder, env: Environment)
    requires id in g.requests && g.requests[id].stage == NeedAccount(order)
    ensures var m, reply := Run(g, GateEvents(id, env)), GateReply(g, id, env);
            && SameLogs(g, m) && id in m.requests
            && if reply.Some? then m.requests[id].stage == Done(reply.value)
               else m.requests[id].stage.NeedPlace? && m.requests[id].stage.order == order
  {
    RunOf3(g, Advance(id, GateInput(env)), Advance(id, TradesInput(env)), Advance(id, GateInput(env)));
    var m1 := Step(g, id, GateInput(env));
    assert m1 == FetchAccount(g, id, order, GateInput(env));
    if env.account.Success? {
      var m2 := Step(m1, id, TradesInput(env));
      assert m2 == FetchTrades(m1, id, order, env.account.value, TradesInput(env));
    }
  }

  // ---- The call and the reply ----

  lemma ReplyRuns(g: Gateway, id: RequestId, placed: Order, input: Input)
    requires id in g.requests && g.requests[id].stage == NeedPersist(placed)
    ensures var m := Step(Step(g, id, input), id, input);
            && m.calls == g.calls && StageOf(m, id) == Some(Done(Created(placed)))
            && m.orders == if input.storeOk then g.orders + [Row(id, placed)] else g.orders
  {
    var m := Step(g, id, input);
    assert m == Persist(g, id, placed, input);
    assert Step(m, id, input) == ReplyCreated(m, id, placed);
  }

  lemma CallRuns(g: Gateway, id: RequestId, order: CheckedOrder, evidence: Option<Evidence>, input: Input)
    requires id in g.requests && g.requests[id].stage == NeedPlace(order, evidence)
    ensures var m := Step(g, id, input);
            && m.calls == g.calls + [Call(id, order, evidence, input.placed)] && m.orders == g.orders
            && m.requests[id].stage ==
               if input.placed.Failure? then Done(PlaceFailed) else NeedPersist(Stamp(input.placed.value, id.user))
  {
    assert Step(g, id, input) == Place(g, id, order, evidence, input);
  }

  lemma DoneStays(g: Gateway, id: RequestId, input: Input)
    requires id in g.requests && g.requests[id].stage.Done?
    ensures Step(Step(g, id, input), id, input) == g
  {
  }

  lemma PlaceRuns(g: Gateway, id: RequestId, order: CheckedOrder, evidence: Option<Evidence>, env: Environment)
    requires id in g.requests && g.requests[id].stage == NeedPlace(order, evidence)
    ensures var m := Run(g, PlaceEvents(id, env));
            && m.calls == g.calls + [Call(id, order, evidence, env.placed)]
            && StageOf(m, id) == Some(Done(if env.placed.Success? then Created(Stamp(env.placed.value, id.user))
                                           else PlaceFailed))
            && m.orders == if env.placed.Success? && env.persistOk
                           then g.orders + [Row(id, Stamp(env.placed.value, id.user))] else g.orders
  {
    var e, input := Advance(id, PersistInput(env)), PersistInput(env);
    RunOf3(g, e, e, e);
    CallRuns(g, id, order, evidence, input);
    if env.placed.Success? {
      ReplyRuns(Step(g, id, input), id, Stamp(env.placed.value, id.user), input);
    } else {
      DoneStays(Step(g, id, input), id, input);
    }
  }

  // ---- Start to finish ----

  predicate Placed(g: Gateway, id: RequestId, form: Option<OrderForm>, env: Environment) {
    Acceptable(g, id, form, env) && GatePasses(g, id, form, env)
  }

  /** The gateway after a request that ran from start to finish. */
  function Handled(g: Gateway, id: RequestId, form: Option<OrderForm>, env: Environment): Gateway {
    Run(g, OrderEvents(id, form, env))
  }

  /** Acceptance, the gate for Alpaca, and the call. */
  lemma HandledInParts(g: Gateway, id: RequestId, form: Option<OrderForm>, env: Environment)
    ensures var m1 := Run(g, AcceptEvents(id, form, env));
            var m2 := if ForAlpaca(form) then Run(m1, GateEvents(id, env)) else m1;
            Handled(g, id, form, env) == Run(m2, PlaceEvents(id, env))
  {
    var gate := if ForAlpaca(form) then GateEvents(id, env) else [];
    var m1 := Run(g, AcceptEvents(id, form, env));
    RunAppend(g, AcceptEvents(id, form, env), gate + PlaceEvents(id, env));
    assert OrderEvents(id, form, env) == AcceptEvents(id, form, env) + (gate + PlaceEvents(id, env));
    RunAppend(m1, gate, PlaceEvents(id, env));
  }

  /** The reply to a request that never gets to the call. */
  function EarlyReply(g: Gateway, id: RequestId, form: Option<OrderForm>, env: Environment): Option<Reply> {
    if !Acceptable(g, id, form, env) then Some(Refusal(form, env))
    else if IsForAlpaca(form) then GateReply(g, id, env)
    else None
  }

  /** Where the request stands before the call to the broker. */
  lemma BeforeCall(g: Gateway, id: RequestId, form: Option<OrderForm>, env: Environment) returns (m: Gateway)
    requires id !in g.requests
    ensures Handled(g, id, form, env) == Run(m, PlaceEvents(id, env))
    ensures SameLogs(g, m) && id in m.requests
    ensures var reply := EarlyReply(g, id, form, env);
            if reply.Some? then m.requests[id].stage == Done(reply.value)
            else m.requests[id].stage.NeedPlace? && Some(m.requests[id].stage.order) == Validate(form)
  {
    HandledInParts(g, id, form, env);
    ValidIffWellFormed(form);
    Accepts(g, id, form, env);
    m := Run(g, AcceptEvents(id, form, env));
    if ForAlpaca(form) {
      if Acceptable(g, id, form, env) {
        GateRuns(m, id, Validate(form).value, env);
      } else {
        OrderStutters(m, id, env);
      }
      m := Run(m, GateEvents(id, env));
    }
  }

  /** What the request comes to, by what happened before the call. */
  lemma HandledOutcome(g: Gateway, id: RequestId, form: Option<OrderForm>, env: Environment)
    requires id !in g.requests
    ensures var m, early := Handled(g, id, form, env), EarlyReply(g, id, form, env);
            if early.Some? then SameLogs(g, m) && StageOf(m, id) == Some(Done(early.value))
            else
              && Validate(form).Some? && |m.calls| == |g.calls| + 1
              && m.calls[|g.calls|].id == id && m.calls[|g.calls|].order == Validate(form).value
              && StageOf(m, id) == Some(Done(if env.placed.Success? then Created(env.placed.value.(userId := id.user))
                                             else PlaceFailed))
              && m.orders == if env.placed.Success? && env.persistOk
                             then g.orders + [Row(id, env.placed.value.(userId := id.user))] else g.orders
  {
    var m := BeforeCall(g, id, form, env);
    if EarlyReply(g, id, form, env).None? {
      PlaceRuns(m, id, m.requests[id].stage.order, m.requests[id].stage.evidence, env);
    } else {
      OrderStutters(m, id, env);
    }
  }

  lemma PlacedIffNoEarlyReply(g: Gateway, id: RequestId, form: Option<OrderForm>, env: Environment)
    ensures Placed(g, id, form, env) <==> EarlyReply(g, id, form, env).None?
  {
  }

  /**
   * The broker is called exactly for a well-formed order, of a connected user,
   * that the gate lets pass if it goes to Alpaca, and the call says what the
   * form says. The reply is 201 exactly if the broker then returns the order;
   * it and the ledger, if the order can be persisted, have the broker's order
   * with nothing changed but the user id.
   */
  lemma CreatedIff(g: Gateway, id: RequestId, form: Option<OrderForm>, env: Environment)
    requires id !in g.requests
    ensures var m := Handled(g, id, form, env);
            var placed := Placed(g, id, form, env);
            && |m.calls| == |g.calls| + (if placed then 1 else 0)
            && (placed ==>
                  var order, f := m.calls[|g.calls|].order, form.value;
                  && m.calls[|g.calls|].id == id
                  && Name(order.broker) == f.broker
                  && (order.side == Buy <==> f.side == "buy") && (order.side == Sell <==> f.side == "sell")
                  && (order.kind == Market <==> f.kind == "market") && (order.kind == Limit <==> f.kind == "limit")
                  && order.symbol == f.symbol && order.quantity == f.quantity && order.limitPrice == f.limitPrice)
            && StageOf(m, id).Some? && StageOf(m, id).value.Done?
            && (StageOf(m, id).value.reply.Created? <==> placed && env.placed.Success?)
            && (placed && env.placed.Success? ==>
                  StageOf(m, id).value.reply.order == env.placed.value.(userId := id.user))
            && m.orders == if placed && env.placed.Success? && env.persistOk
                           then g.orders + [Row(id, env.placed.value.(userId := id.user))] else g.orders
  {
    HandledOutcome(g, id, form, env);
    PlacedIffNoEarlyReply(g, id, form, env);
    ValidIffWellFormed(form);
  }

  /** Which reply means what: one and only one reason for each. */
  lemma RepliesMean(g: Gateway, id: RequestId, form: Option<OrderForm>, env: Environment)
    requires id !in g.requests
    ensures var m := Handled(g, id, form, env);
            && StageOf(m, id).Some? && StageOf(m, id).value.Done?
            && var reply := StageOf(m, id).value.reply;
               var fine := form.Some? && WellFormed(form.value);
               var known := fine && env.loadOk && Connected(g, id, form.value.broker);
               var gated := known && form.value.broker == "alpaca";
               && (reply == BadRequest <==> !fine)
               && (reply == NotConnected <==> fine && env.loadOk && !Connected(g, id, form.value.broker))
               && (reply == AccountFetchFailed <==> gated && env.account.Failure?)
               && (reply == InternalError <==>
                     (fine && !env.loadOk) || (gated && env.account.Success? && !env.tradesOk))
               && (reply == Restricted <==> gated && FactsKnown(env) && RestrictedNow(g, id, env))
               && (reply == PlaceFailed <==> Placed(g, id, form, env) && env.placed.Failure?)
  {
    HandledOutcome(g, id, form, env);
    PlacedIffNoEarlyReply(g, id, form, env);
  }

  /**
   * With the rule spelled out: on a weekday after midnight, or at a weekend
   * midnight, an acceptable order for Alpaca is answered 403 exactly if the
   * account's equity is under 25,000 and its owner made three or more day trades
   * there, anywhere in the table, on the last five business dates.
   */
  lemma RefusedByTheRule(g: Gateway, id: RequestId, form: Option<OrderForm>, env: Environment)
    requires id !in g.requests && Acceptable(g, id, form, env) && IsForAlpaca(form) && FactsKnown(env)
    requires DatedOnWeekdays(g.dayTrades) && !env.fetchedAt.After(env.checkedAt)
    requires IsWeekday(env.checkedAt.day) <==> !env.checkedAt.IsMidnight()
    ensures StageOf(Handled(g, id, form, env), id) == Some(Done(Restricted))
       <==> env.account.value.equity < 25000.0
            && |Filter(g.dayTrades, Meant(id.user, Alpaca, env.checkedAt.day))| >= 3
  {
    RepliesMean(g, id, form, env);
    GateRule(env.account.value, id.user, Alpaca, g.dayTrades, env.fetchedAt, env.checkedAt);
  }
}
