/**
 * The order handler as it is written (internal/httpapi/order_handlers.go lines
 * 28-122), one request from start to finish: it takes the steps of Gateway.
 */
module OrderServer {
  import opened Wrappers
  import opened Calendar
  import opened Models
  import opened PdtGate
  import opened Credentials
  import opened Gateway

  /** What the environment does during one order request. */
  datatype Environment = Environment(loadOk: bool, account: Result<Account, string>, tradesOk: bool, fetchedAt: Instant,
                                     checkedAt: Instant, placed: Result<Order, string>, persistOk: bool)

  function StepInput(storeOk: bool, now: Instant, env: Environment): Input {
    Input(storeOk, now, env.account, env.placed, Failed, false)
  }

  function LoadInput(env: Environment): Input { StepInput(env.loadOk, env.fetchedAt, env) }

  function TradesInput(env: Environment): Input { StepInput(env.tradesOk, env.fetchedAt, env) }

  function GateInput(env: Environment): Input { StepInput(true, env.checkedAt, env) }

  function PersistInput(env: Environment): Input { StepInput(env.persistOk, env.checkedAt, env) }

  predicate ForAlpaca(form: Option<OrderForm>) {
    Validate(form).Some? && Validate(form).value.broker == Alpaca
  }

  function GateEvents(id: RequestId, env: Environment): seq<Event> {
    [Advance(id, GateInput(env)), Advance(id, TradesInput(env)), Advance(id, GateInput(env))]
  }

  function PlaceEvents(id: RequestId, env: Environment): seq<Event> {
    [Advance(id, PersistInput(env)), Advance(id, PersistInput(env)), Advance(id, PersistInput(env))]
  }

  /** The steps of one request; those after its reply do nothing. */
  function OrderEvents(id: RequestId, form: Option<OrderForm>, env: Environment): seq<Event> {
    [Arrive(id, CreateOrder(form)), Advance(id, LoadInput(env))]
    + ((if ForAlpaca(form) then GateEvents(id, env) else []) + PlaceEvents(id, env))
  }

  lemma {:induction false} DoneStutters(g: Gateway, events: seq<Event>, id: RequestId)
    requires id in g.requests && g.requests[id].stage.Done?
    requires forall i :: 0 <= i < |events| ==> events[i].Advance? && events[i].id == id
    ensures Run(g, events) == g
  {
    if events != [] {
      DoneStutters(g, events[..|events| - 1], id);
    }
  }

  lemma OrderStutters(g: Gateway, id: RequestId, env: Environment)
    requires id in g.requests && g.requests[id].stage.Done?
    ensures Run(g, GateEvents(id, env)) == g && Run(g, PlaceEvents(id, env)) == g && Run(g, []) == g
  {
    DoneStutters(g, GateEvents(id, env), id);
    DoneStutters(g, PlaceEvents(id, env), id);
  }

  lemma RunOf3(g: Gateway, e1: Event, e2: Event, e3: Event)
    ensures Run(g, [e1, e2, e3]) == Apply(Apply(Apply(g, e1), e2), e3)
  {
    RunFirst(g, e1, [e2, e3]);
    RunFirst(Apply(g, e1), e2, [e3]);
    RunFirst(Apply(Apply(g, e1), e2), e3, []);
    assert [e1] + [e2, e3] == [e1, e2, e3] && [e2] + [e3] == [e2, e3] && [e3] + [] == [e3];
  }

  class Server {
    const credentials: CredentialStore
    const dayTrades: DayTradeStore
    var orders: seq<Row>
    /** The rows of the token table, which no order touches. */
    ghost const tokens: map<(UserId, Broker), string>
    ghost var requests: map<RequestId, Request>
    ghost var calls: seq<Call>
    ghost var lost: seq<Row>
    ghost var created: seq<Row>

    constructor (credentials: CredentialStore, dayTrades: DayTradeStore, ghost tokens: map<(UserId, Broker), string>)
      ensures this.credentials == credentials && this.dayTrades == dayTrades
      ensures Snapshot() == Gateway(credentials.rows, tokens, dayTrades.table, [], map[], [], [], [])
    {
      this.credentials, this.dayTrades, this.tokens := credentials, dayTrades, tokens;
      orders, requests, calls, lost, created := [], map[], [], [], [];
    }

    ghost function Snapshot(): Gateway
      reads this, credentials, dayTrades
    {
      Gateway(credentials.rows, tokens, dayTrades.table, orders, requests, calls, lost, created)
    }

    /** The call to the broker. */
    method Place(id: RequestId, form: Option<OrderForm>, order: CheckedOrder, ghost evidence: Option<Evidence>,
                 env: Environment)
      returns (placed: Option<Order>)
      requires id in requests && requests[id] == Request(CreateOrder(form), NeedPlace(order, evidence))
      modifies this
      ensures Snapshot() == Apply(old(Snapshot()), Advance(id, PersistInput(env)))
      ensures id in requests && requests[id] ==
        Request(CreateOrder(form), if placed.Some? then NeedPersist(placed.value) else Done(PlaceFailed))
    {
      ghost var g0 := Snapshot();
      calls := calls + [Call(id, order, evidence, env.placed)];
      if env.placed.Failure? {
        requests := requests[id := Request(CreateOrder(form), Done(PlaceFailed))];
        assert Snapshot() == Step(g0, id, PersistInput(env));
        return None;
      }
      placed := Some(Stamp(env.placed.value, id.user));
      requests := requests[id := Request(CreateOrder(form), NeedPersist(placed.value))];
      assert Snapshot() == Step(g0, id, PersistInput(env));
    }

    /** A placed order is answered with 201 whether or not it can be persisted. */
    method Persist(id: RequestId, form: Option<OrderForm>, placed: Order, env: Environment)
      requires id in requests && requests[id] == Request(CreateOrder(form), NeedPersist(placed))
      modifies this
      ensures Snapshot() == Apply(old(Snapshot()), Advance(id, PersistInput(env)))
      ensures id in requests && requests[id] == Request(CreateOrder(form), NeedReply(placed))
    {
      ghost var g0 := Snapshot();
      if env.persistOk {
        orders := orders + [Row(id, placed)];
      } else {
        lost := lost + [Row(id, placed)];
      }
      requests := requests[id := Request(CreateOrder(form), NeedReply(placed))];
      assert Snapshot() == Step(g0, id, PersistInput(env));
    }

    method Reply201(id: RequestId, form: Option<OrderForm>, placed: Order, env: Environment)
      requires id in requests && requests[id] == Request(CreateOrder(form), NeedReply(placed))
      modifies this
      ensures Snapshot() == Apply(old(Snapshot()), Advance(id, PersistInput(env)))
      ensures id in requests && requests[id] == Request(CreateOrder(form), Done(Created(placed)))
    {
      ghost var g0 := Snapshot();
      created := created + [Row(id, placed)];
      requests := requests[id := Request(CreateOrder(form), Done(Created(placed)))];
      assert Snapshot() == Step(g0, id, PersistInput(env));
    }

    /** From the call to the broker on: nothing after it can turn a placed order into an error. */
    method PlaceAndReply(id: RequestId, form: Option<OrderForm>, order: CheckedOrder, ghost evidence: Option<Evidence>,
                         env: Environment)
      returns (reply: Reply)
      requires id in requests && requests[id] == Request(CreateOrder(form), NeedPlace(order, evidence))
      modifies this
      ensures Snapshot() == Run(old(Snapshot()), PlaceEvents(id, env))
      ensures StageOf(Snapshot(), id) == Some(Done(reply))
    {
      ghost var e := Advance(id, PersistInput(env));
      RunOf3(Snapshot(), e, e, e);
      var placed := Place(id, form, order, evidence, env);
      if placed.None? {
        return PlaceFailed;
      }
      Persist(id, form, placed.value, env);
      Reply201(id, form, placed.value, env);
      return Created(placed.value);
    }

    method FetchAccount(id: RequestId, form: Option<OrderForm>, order: CheckedOrder, env: Environment)
      returns (account: Option<Account>)
      requires id in requests && requests[id] == Request(CreateOrder(form), NeedAccount(order))
      modifies this
      ensures Snapshot() == Apply(old(Snapshot()), Advance(id, GateInput(env)))
      ensures id in requests && requests[id] ==
        Request(CreateOrder(form), if account.Some? then NeedTrades(order, account.value) else Done(AccountFetchFailed))
    {
      ghost var g0 := Snapshot();
      account := if env.account.Failure? then None else Some(env.account.value);
      requests := requests[id := Request(CreateOrder(form),
        if account.Some? then NeedTrades(order, account.value) else Done(AccountFetchFailed))];
      assert Snapshot() == Step(g0, id, GateInput(env));
    }

    method FetchDayTrades(id: RequestId, form: Option<OrderForm>, order: CheckedOrder, account: Account, env: Environment)
      returns (trades: Option<seq<DayTrade>>)
      requires id in requests && requests[id] == Request(CreateOrder(form), NeedTrades(order, account))
      modifies this
      ensures Snapshot() == Apply(old(Snapshot()), Advance(id, TradesInput(env)))
      ensures id in requests && requests[id] ==
        Request(CreateOrder(form),
                if trades.Some? then NeedGate(order, account, trades.value, env.fetchedAt) else Done(InternalError))
    {
      ghost var g0 := Snapshot();
      var fetched := dayTrades.ListRecent(id.user, Alpaca, env.fetchedAt, env.tradesOk);
      trades := if fetched.Failure? then None else Some(fetched.value);
      requests := requests[id := Request(CreateOrder(form),
        if trades.Some? then NeedGate(order, account, trades.value, env.fetchedAt) else Done(InternalError))];
      assert Snapshot() == Step(g0, id, TradesInput(env));
    }

    method CheckGate(id: RequestId, form: Option<OrderForm>, order: CheckedOrder, account: Account,
                     trades: seq<DayTrade>, env: Environment)
      returns (restricted: bool)
      requires id in requests && requests[id] == Request(CreateOrder(form), NeedGate(order, account, trades, env.fetchedAt))
      modifies this
      ensures Snapshot() == Apply(old(Snapshot()), Advance(id, GateInput(env)))
      ensures id in requests && requests[id] ==
        Request(CreateOrder(form),
                if restricted then Done(Restricted)
                else NeedPlace(order, Some(Evidence(account, trades, env.fetchedAt, env.checkedAt))))
    {
      ghost var g0 := Snapshot();
      var check := CheckPDT(account, id.user, Alpaca, trades, env.checkedAt);
      restricted := check.restricted;
      requests := requests[id := Request(CreateOrder(form),
        if restricted then Done(Restricted)
        else NeedPlace(order, Some(Evidence(account, trades, env.fetchedAt, env.checkedAt))))];
      assert Snapshot() == Step(g0, id, GateInput(env));
    }

    /** The gate: fetch the account, fetch the recent day trades, check. */
    method Gate(id: RequestId, form: Option<OrderForm>, order: CheckedOrder, env: Environment)
      returns (refusal: Option<Reply>, ghost evidence: Option<Evidence>)
      requires id in requests && requests[id] == Request(CreateOrder(form), NeedAccount(order))
      modifies this
      ensures Snapshot() == Run(old(Snapshot()), GateEvents(id, env))
      ensures StageOf(Snapshot(), id) == Some(if refusal.Some? then Done(refusal.value) else NeedPlace(order, evidence))
      ensures requests[id].body == CreateOrder(form)
    {
      evidence := None;
      RunOf3(Snapshot(), Advance(id, GateInput(env)), Advance(id, TradesInput(env)), Advance(id, GateInput(env)));
      var account := FetchAccount(id, form, order, env);
      if account.None? {
        return Some(AccountFetchFailed), evidence;
      }
      var trades := FetchDayTrades(id, form, order, account.value, env);
      if trades.None? {
        return Some(InternalError), evidence;
      }
      var restricted := CheckGate(id, form, order, account.value, trades.value, env);
      if restricted {
        return Some(Restricted), evidence;
      }
      return None, Some(Evidence(account.value, trades.value, env.fetchedAt, env.checkedAt));
    }

    /** Validation and the look at the store. */
    method Accept(id: RequestId, form: Option<OrderForm>, env: Environment) returns (refusal: Option<Reply>)
      requires id !in requests
      modifies this
      ensures Snapshot() == Run(old(Snapshot()), [Arrive(id, CreateOrder(form)), Advance(id, LoadInput(env))])
      ensures id in requests && requests[id].body == CreateOrder(form)
      ensures refusal.Some? ==> requests[id].stage == Done(refusal.value)
      ensures refusal.None? ==>
        && Validate(form).Some?
        && requests[id].stage == if ForAlpaca(form) then NeedAccount(Validate(form).value)
                                 else NeedPlace(Validate(form).value, None)
    {
      var e1, e2 := Arrive(id, CreateOrder(form)), Advance(id, LoadInput(env));
      ghost var g0 := Snapshot();
      RunFirst(g0, e1, [e2]);
      assert [e1] + [e2] == [e1, e2];
      requests := requests[id := Request(CreateOrder(form), Received)];
      ghost var g1 := Snapshot();
      assert g1 == Apply(g0, e1);
      RunFirst(g1, e2, []);
      assert [e2] + [] == [e2];
      var order := Validate(form);
      refusal := None;
      if order.None? {
        refusal := Some(BadRequest);
      } else {
        var secrets := credentials.Load(id.user, order.value.broker, env.loadOk);
        if secrets.Failure? {
          refusal := Some(InternalError);
        } else if secrets.value.None? {
          refusal := Some(NotConnected);
        }
      }
      requests := requests[id := Request(CreateOrder(form),
        if refusal.Some? then Done(refusal.value)
        else if ForAlpaca(form) then NeedAccount(order.value)
        else NeedPlace(order.value, None))];
      assert Snapshot() == Apply(g1, e2);
    }

    /** One order request, start to finish. */
    method HandleCreateOrder(id: RequestId, form: Option<OrderForm>, env: Environment) returns (reply: Reply)
      requires id !in requests
      modifies this
      ensures Snapshot() == Run(old(Snapshot()), OrderEvents(id, form, env))
      ensures StageOf(Snapshot(), id) == Some(Done(reply))
    {
      ghost var g0 := Snapshot();
      ghost var begin := [Arrive(id, CreateOrder(form)), Advance(id, LoadInput(env))];
      ghost var gate := if ForAlpaca(form) then GateEvents(id, env) else [];
      RunAppend(g0, begin, gate + PlaceEvents(id, env));
      assert begin + (gate + PlaceEvents(id, env)) == OrderEvents(id, form, env);
      var refusal := Accept(id, form, env);
      ghost var g1 := Snapshot();
      RunAppend(g1, gate, PlaceEvents(id, env));
      if refusal.Some? {
        OrderStutters(g1, id, env);
        return refusal.value;
      }
      var order := Validate(form).value;
      ghost var evidence := None;
      if order.broker == Alpaca {
        refusal, evidence := Gate(id, form, order, env);
        if refusal.Some? {
          OrderStutters(Snapshot(), id, env);
          return refusal.value;
        }
      }
      reply := PlaceAndReply(id, form, order, evidence, env);
    }
  }
}
