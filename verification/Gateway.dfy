/**
 * The gateway's handlers as interleaved steps over shared tables: order
 * submission (internal/httpapi/order_handlers.go), saving, deleting and
 * importing credentials (internal/httpapi/credential_handlers.go) and
 * Questrade calls that rotate the stored token. Broker replies, clock readings
 * and store failures are the inputs of a step.
 */
module Gateway {
  import opened Wrappers
  import opened Calendar
  import opened Models
  import opened PdtGate
  import opened Credentials

  /** A request belongs to the authenticated user who sent it. */
  datatype RequestId = RequestId(user: UserId, number: nat)

  datatype OrderForm = OrderForm(broker: string, symbol: string, side: string, kind: string,
                                 quantity: real, limitPrice: Option<real>)

  /** A form that has passed validation. */
  datatype CheckedOrder = CheckedOrder(broker: Broker, symbol: string, side: Side, kind: OrderType,
                                       quantity: real, limitPrice: Option<real>)

  /** Bodies that may fail to decode are options. */
  datatype Body =
    | CreateOrder(form: Option<OrderForm>)
    | SaveCredential(broker: string, secrets: Option<Secrets>)
    | DeleteCredential(broker: string)
    | ImportCredentials(env: EnvConfig)
    | QuestradeCall

  datatype Reply =
    | BadRequest              // 400
    | NotConnected            // 404
    | AccountFetchFailed      // 502
    | Restricted              // 403
    | PlaceFailed             // 502
    | InternalError           // 500
    | Created(order: Order)   // 201
    | NoContent               // 204
    | Imported(brokers: seq<Broker>)
    | Forwarded(ok: bool)

  /** What the gate looked at before a call to the broker. */
  datatype Evidence = Evidence(account: Account, trades: seq<DayTrade>, fetchedAt: Instant, checkedAt: Instant)

  const SECOND := 1_000_000_000

  /** What the token endpoint answers; the lifetime is in seconds. */
  datatype Grant = Grant(refreshToken: string, accessToken: string, expiresIn: int)

  /** A client's access token and the time, in nanoseconds, at which it counts as expired. */
  datatype Access = Access(token: string, expiresAt: int)
  {
    predicate Good(now: Instant) {
      token != "" && now.Nanos() < expiresAt
    }
  }

  function AccessOf(grant: Grant, now: Instant): Access {
    Access(grant.accessToken, now.Nanos() + (grant.expiresIn - 30) * SECOND)
  }

  /**
   * A Questrade call makes two API requests on a new client; `more` says that
   * the second is still to come.
   */
  datatype Stage =
    | Received
    | NeedAccount(order: CheckedOrder)
    | NeedTrades(order: CheckedOrder, account: Account)
    | NeedGate(order: CheckedOrder, account: Account, trades: seq<DayTrade>, fetchedAt: Instant)
    | NeedPlace(order: CheckedOrder, evidence: Option<Evidence>)
    | NeedPersist(placed: Order)
    | NeedReply(placed: Order)
    | Importing(env: EnvConfig, already: seq<Broker>, todo: seq<Broker>, imported: seq<Broker>)
    | NeedToken(configured: string)
    | NeedExchange(token: string, more: bool)
    | Exchanging(token: string, more: bool)
    | NeedTokenReply(token: string, grant: Grant, more: bool)
    | NeedTokenSave(issued: string, access: Access, more: bool)
    | NeedAnswer(token: string, access: Access, more: bool)
    | Done(reply: Reply)
    | Dead(at: Stage)  // the gateway was stopped while the request was at this stage

  datatype Request = Request(body: Body, stage: Stage)

  /** One call of PlaceOrder and what came back; an error does not show that the broker refused the order. */
  datatype Call = Call(id: RequestId, order: CheckedOrder, evidence: Option<Evidence>, outcome: Result<Order, string>)

  datatype Row = Row(id: RequestId, order: Order)

  /**
   * The tables, the requests, and three logs: calls to brokers, orders that
   * could not be persisted, and 201 replies. Nothing writes `dayTrades`.
   */
  datatype Gateway = Gateway(
    credentials: Rows,
    tokens: map<(UserId, Broker), string>,
    dayTrades: seq<DayTrade>,
    orders: seq<Row>,
    requests: map<RequestId, Request>,
    calls: seq<Call>,
    lost: seq<Row>,
    created: seq<Row>)

  /** What becomes of a request to the token endpoint. */
  datatype Exchange =
    | Failed                 // it never reaches the endpoint's token state
    | GivenUp                // the client stops waiting; the endpoint may yet act on it
    | Refused
    | Issued(grant: Grant)   // the token presented has been replaced by the granted one; the reply is under way

  /**
   * What the environment contributes to one step; each step uses the part it
   * needs. `answered` is about the reply a Questrade client waits for.
   */
  datatype Input = Input(storeOk: bool, now: Instant, account: Result<Account, string>, placed: Result<Order, string>,
                         exchange: Exchange, answered: bool)

  datatype Event =
    | Arrive(id: RequestId, body: Body)
    | Advance(id: RequestId, input: Input)
    | Die(id: RequestId)  // a restart of the gateway is the death of every request under way

  // ---- Validation ----

  function ParseSide(side: string): Option<Side> {
    if side == "buy" then Some(Buy) else if side == "sell" then Some(Sell) else None
  }

  function ParseKind(kind: string): Option<OrderType> {
    if kind == "market" then Some(Market) else if kind == "limit" then Some(Limit) else None
  }

  function Validate(form: Option<OrderForm>): Option<CheckedOrder> {
    if form.None? then None
    else
      var f := form.value;
      if ParseBroker(f.broker).None? then None
      else if ParseSide(f.side).None? then None
      else if ParseKind(f.kind).None? then None
      else if f.symbol == "" then None
      else if f.quantity <= 0.0 then None
      else if ParseKind(f.kind).value == Limit && f.limitPrice.None? then None
      else Some(CheckedOrder(ParseBroker(f.broker).value, f.symbol, ParseSide(f.side).value, ParseKind(f.kind).value,
                             f.quantity, f.limitPrice))
  }

  // ---- Steps ----

  /** Only the stage of this one request has changed among the requests, and the day trades are as they were. */
  predicate Frame(g: Gateway, m: Gateway, id: RequestId) {
    && id in g.requests && id in m.requests
    && m.requests == g.requests[id := Request(g.requests[id].body, m.requests[id].stage)]
    && m.dayTrades == g.dayTrades
  }

  predicate SameLogs(g: Gateway, m: Gateway) {
    m.calls == g.calls && m.orders == g.orders && m.lost == g.lost && m.created == g.created
  }

  predicate SameTables(g: Gateway, m: Gateway) {
    m.credentials == g.credentials && m.tokens == g.tokens
  }

  /** What a first step leaves alone. */
  predicate Begun(g: Gateway, m: Gateway, id: RequestId) {
    Frame(g, m, id) && SameLogs(g, m) && !HasCalled(Some(m.requests[id].stage))
  }

  function Put(g: Gateway, id: RequestId, stage: Stage): (m: Gateway)
    requires id in g.requests
    ensures Frame(g, m, id) && SameLogs(g, m) && SameTables(g, m) && m.requests[id].stage == stage
  {
    g.(requests := g.requests[id := g.requests[id].(stage := stage)])
  }

  function Finish(g: Gateway, id: RequestId, reply: Reply): (m: Gateway)
    requires id in g.requests
    ensures Frame(g, m, id) && SameLogs(g, m) && SameTables(g, m) && m.requests[id].stage == Done(reply)
  {
    Put(g, id, Done(reply))
  }

  function BuildAdapter(g: Gateway, id: RequestId, order: CheckedOrder, input: Input): (m: Gateway)
    requires id in g.requests
    ensures SameTables(g, m)
    ensures Begun(g, m, id)
  {
    if !input.storeOk then Finish(g, id, InternalError)
    else if (id.user, order.broker) !in g.credentials then Finish(g, id, NotConnected)
    else if order.broker == Alpaca then Put(g, id, NeedAccount(order))
    else Put(g, id, NeedPlace(order, None))
  }

  function BeginOrder(g: Gateway, id: RequestId, form: Option<OrderForm>, input: Input): (m: Gateway)
    requires id in g.requests
    ensures SameTables(g, m)
    ensures Begun(g, m, id)
  {
    var order := Validate(form);
    if order.None? then Finish(g, id, BadRequest) else BuildAdapter(g, id, order.value, input)
  }

  function SaveCredentials(g: Gateway, id: RequestId, name: string, secrets: Option<Secrets>, input: Input): (m: Gateway)
    requires id in g.requests
    ensures Begun(g, m, id) && m.requests[id].stage.Done?
  {
    var broker := ParseBroker(name);
    if secrets.None? || broker.None? then Finish(g, id, BadRequest)
    else if !input.storeOk then Finish(g, id, InternalError)
    else Finish(g, id, NoContent).(credentials := g.credentials[(id.user, broker.value) := secrets.value])
  }

  function DeleteCredentials(g: Gateway, id: RequestId, name: string, input: Input): (m: Gateway)
    requires id in g.requests
    ensures Begun(g, m, id) && m.requests[id].stage.Done?
  {
    if name == "" then Finish(g, id, BadRequest)
    else if !input.storeOk then Finish(g, id, InternalError)
    else
      var broker := ParseBroker(name);
      Finish(g, id, NoContent).(credentials :=
        if broker.Some? then g.credentials - {(id.user, broker.value)} else g.credentials)
  }

  function BeginImport(g: Gateway, id: RequestId, env: EnvConfig, input: Input): (m: Gateway)
    requires id in g.requests
    ensures SameTables(g, m)
    ensures Begun(g, m, id) && (m.requests[id].stage.Done? || m.requests[id].stage.Importing?)
  {
    if !input.storeOk then Finish(g, id, InternalError)
    else Put(g, id, Importing(env, ConnectedList(g.credentials, id.user), KNOWN_BROKERS, []))
  }

  function BeginQuestrade(g: Gateway, id: RequestId, input: Input): (m: Gateway)
    requires id in g.requests
    ensures SameTables(g, m)
    ensures Begun(g, m, id) && (m.requests[id].stage.Done? || m.requests[id].stage.NeedToken?)
  {
    if !input.storeOk then Finish(g, id, InternalError)
    else if (id.user, Questrade) !in g.credentials then Finish(g, id, NotConnected)
    else
      var secrets := g.credentials[(id.user, Questrade)];
      Put(g, id, NeedToken(if "refresh_token" in secrets then secrets["refresh_token"] else ""))
  }

  /** The first step: decode, validate, and look at the store. */
  function Begin(g: Gateway, id: RequestId, input: Input): (m: Gateway)
    requires id in g.requests
    ensures Begun(g, m, id) && m.tokens == g.tokens
  {
    match g.requests[id].body
    case CreateOrder(form) => BeginOrder(g, id, form, input)
    case SaveCredential(name, secrets) => SaveCredentials(g, id, name, secrets, input)
    case DeleteCredential(name) => DeleteCredentials(g, id, name, input)
    case ImportCredentials(env) => BeginImport(g, id, env, input)
    case QuestradeCall => BeginQuestrade(g, id, input)
  }

  /** The order as it is persisted and returned. */
  function Stamp(order: Order, user: UserId): Order {
    order.(userId := user)
  }

  function ImportNext(g: Gateway, id: RequestId, env: EnvConfig, already: seq<Broker>, todo: seq<Broker>,
                      imported: seq<Broker>, input: Input): (m: Gateway)
    requires id in g.requests
    ensures Frame(g, m, id) && SameLogs(g, m) && m.tokens == g.tokens
    ensures m.requests[id].stage.Importing? || m.requests[id].stage == Done(Imported(imported))
  {
    if todo == [] then Finish(g, id, Imported(imported))
    else
      var broker := todo[0];
      var secrets := EnvSecrets(env, broker);
      if broker in already || secrets.None? || !input.storeOk then
        Put(g, id, Importing(env, already, todo[1..], imported))
      else
        Put(g, id, Importing(env, already, todo[1..], imported + [broker])).(
          credentials := g.credentials[(id.user, broker) := secrets.value])
  }

  function FetchTrades(g: Gateway, id: RequestId, order: CheckedOrder, account: Account, input: Input): (m: Gateway)
    requires id in g.requests
    ensures SameTables(g, m)
    ensures Frame(g, m, id) && SameLogs(g, m)
  {
    if !input.storeOk then Finish(g, id, InternalError)
    else Put(g, id, NeedGate(order, account, RecentTrades(g.dayTrades, id.user, Alpaca, input.now), input.now))
  }

  function Check(g: Gateway, id: RequestId, order: CheckedOrder, evidence: Evidence): (m: Gateway)
    requires id in g.requests
    ensures SameTables(g, m)
    ensures Frame(g, m, id) && SameLogs(g, m)
    ensures m.requests[id].stage == Done(Restricted) || m.requests[id].stage == NeedPlace(order, Some(evidence))
  {
    if Decision(evidence.account, id.user, Alpaca, evidence.trades, evidence.checkedAt).restricted
    then Finish(g, id, Restricted)
    else Put(g, id, NeedPlace(order, Some(evidence)))
  }

  function Place(g: Gateway, id: RequestId, order: CheckedOrder, evidence: Option<Evidence>, input: Input): (m: Gateway)
    requires id in g.requests
    ensures SameTables(g, m)
    ensures Frame(g, m, id)
    ensures m.calls == g.calls + [Call(id, order, evidence, input.placed)]
    ensures m.requests[id].stage ==
      if input.placed.Failure? then Done(PlaceFailed) else NeedPersist(Stamp(input.placed.value, id.user))
    ensures m.orders == g.orders && m.lost == g.lost && m.created == g.created
  {
    var called := g.(calls := g.calls + [Call(id, order, evidence, input.placed)]);
    if input.placed.Failure? then Finish(called, id, PlaceFailed)
    else Put(called, id, NeedPersist(Stamp(input.placed.value, id.user)))
  }

  function Persist(g: Gateway, id: RequestId, order: Order, input: Input): (m: Gateway)
    requires id in g.requests
    ensures SameTables(g, m)
    ensures Frame(g, m, id) && m.requests[id].stage == NeedReply(order)
    ensures m.orders == (if input.storeOk then g.orders + [Row(id, order)] else g.orders)
    ensures m.lost == (if input.storeOk then g.lost else g.lost + [Row(id, order)])
    ensures m.calls == g.calls && m.created == g.created
  {
    var next := Put(g, id, NeedReply(order));
    if input.storeOk then next.(orders := g.orders + [Row(id, order)]) else next.(lost := g.lost + [Row(id, order)])
  }

  function ReplyCreated(g: Gateway, id: RequestId, order: Order): (m: Gateway)
    requires id in g.requests
    ensures SameTables(g, m)
    ensures Frame(g, m, id) && m.requests[id].stage == Done(Created(order))
    ensures m.created == g.created + [Row(id, order)]
    ensures m.calls == g.calls && m.orders == g.orders && m.lost == g.lost
  {
    Finish(g, id, Created(order)).(created := g.created + [Row(id, order)])
  }

  function LoadToken(g: Gateway, id: RequestId, configured: string, input: Input): (m: Gateway)
    requires id in g.requests
    ensures SameTables(g, m)
    ensures Frame(g, m, id) && SameLogs(g, m) && m.requests[id].stage.NeedExchange?
  {
    var stored := if input.storeOk && (id.user, Questrade) in g.tokens then g.tokens[(id.user, Questrade)] else "";
    Put(g, id, NeedExchange(if stored != "" then stored else configured, true))
  }

  function ExchangeToken(g: Gateway, id: RequestId, token: string, more: bool, input: Input): (m: Gateway)
    requires id in g.requests
    ensures SameTables(g, m)
    ensures Frame(g, m, id) && SameLogs(g, m) && (m.requests[id].stage == Done(Forwarded(false)) || m.requests[id].stage.NeedTokenReply?)
  {
    match input.exchange
    case Issued(grant) => Put(g, id, NeedTokenReply(token, grant, more))
    case _ => Finish(g, id, Forwarded(false))
  }

  function ReceiveToken(g: Gateway, id: RequestId, grant: Grant, more: bool, input: Input): (m: Gateway)
    requires id in g.requests
    ensures SameTables(g, m)
    ensures Frame(g, m, id) && SameLogs(g, m) && (m.requests[id].stage == Done(Forwarded(false)) || m.requests[id].stage.NeedTokenSave?)
  {
    if input.answered then Put(g, id, NeedTokenSave(grant.refreshToken, AccessOf(grant, input.now), more))
    else Finish(g, id, Forwarded(false))
  }

  /** A save that fails is only logged. */
  function SaveToken(g: Gateway, id: RequestId, token: string, access: Access, more: bool, input: Input): (m: Gateway)
    requires id in g.requests
    ensures Frame(g, m, id) && SameLogs(g, m) && m.requests[id].stage == NeedAnswer(token, access, more)
  {
    var saved := Put(g, id, NeedAnswer(token, access, more));
    if input.storeOk then saved.(tokens := g.tokens[(id.user, Questrade) := token]) else saved
  }

  /** The answer to an API request, and the way to the next one: straight on while the access token is good. */
  function TakeAnswer(g: Gateway, id: RequestId, token: string, access: Access, more: bool, input: Input): (m: Gateway)
    requires id in g.requests
    ensures SameTables(g, m)
    ensures Frame(g, m, id) && SameLogs(g, m)
    ensures var stage := m.requests[id].stage;
            stage == Done(Forwarded(input.answered)) || stage.NeedAnswer? || stage.NeedExchange?
  {
    if !input.answered then Finish(g, id, Forwarded(false))
    else if !more then Finish(g, id, Forwarded(true))
    else if access.Good(input.now) then Put(g, id, NeedAnswer(token, access, false))
    else Put(g, id, NeedExchange(token, false))
  }

  /** Between the acceptance of an order and its reply. */
  predicate Placing(stage: Stage) {
    stage.NeedAccount? || stage.NeedTrades? || stage.NeedGate? || stage.NeedPlace? || stage.NeedPersist? || stage.NeedReply?
  }

  function FetchAccount(g: Gateway, id: RequestId, order: CheckedOrder, input: Input): (m: Gateway)
    requires id in g.requests
    ensures SameTables(g, m)
    ensures Frame(g, m, id) && SameLogs(g, m)
  {
    match input.account
    case Failure(_) => Finish(g, id, AccountFetchFailed)
    case Success(account) => Put(g, id, NeedTrades(order, account))
  }

  function OrderStep(g: Gateway, id: RequestId, stage: Stage, input: Input): (m: Gateway)
    requires id in g.requests && Placing(stage)
    ensures Frame(g, m, id) && SameTables(g, m)
    ensures !Rotating(m.requests[id].stage)
  {
    match stage
    case NeedAccount(order) => FetchAccount(g, id, order, input)
    case NeedTrades(order, account) => FetchTrades(g, id, order, account, input)
    case NeedGate(order, account, trades, fetchedAt) =>
      Check(g, id, order, Evidence(account, trades, fetchedAt, input.now))
    case NeedPlace(order, evidence) => Place(g, id, order, evidence, input)
    case NeedPersist(order) => Persist(g, id, order, input)
    case NeedReply(order) => ReplyCreated(g, id, order)
  }

  /** With a Questrade client in hand. */
  predicate Rotating(stage: Stage) {
    stage.NeedToken? || stage.NeedExchange? || stage.Exchanging? || stage.NeedTokenReply? || stage.NeedTokenSave?
    || stage.NeedAnswer?
  }

  function TokenStep(g: Gateway, id: RequestId, stage: Stage, input: Input): (m: Gateway)
    requires id in g.requests && Rotating(stage)
    ensures Frame(g, m, id) && SameLogs(g, m)
    ensures m.credentials == g.credentials && (!stage.NeedTokenSave? ==> SameTables(g, m))
    ensures Rotating(m.requests[id].stage) || exists ok :: m.requests[id].stage == Done(Forwarded(ok))
  {
    match stage
    case NeedToken(configured) => LoadToken(g, id, configured, input)
    case NeedExchange(token, more) => Put(g, id, Exchanging(token, more))
    case Exchanging(token, more) => ExchangeToken(g, id, token, more, input)
    case NeedTokenReply(_, grant, more) => ReceiveToken(g, id, grant, more, input)
    case NeedTokenSave(issued, access, more) => SaveToken(g, id, issued, access, more, input)
    case NeedAnswer(token, access, more) => TakeAnswer(g, id, token, access, more, input)
  }

  /** One atomic step of a request that has arrived. */
  function Step(g: Gateway, id: RequestId, input: Input): (m: Gateway)
    requires id in g.requests
    ensures Frame(g, m, id)
  {
    var stage := g.requests[id].stage;
    if Placing(stage) then OrderStep(g, id, stage, input)
    else if Rotating(stage) then TokenStep(g, id, stage, input)
    else
      match stage
      case Received => Begin(g, id, input)
      case Importing(env, already, todo, imported) => ImportNext(g, id, env, already, todo, imported, input)
      case Done(_) => g
      case Dead(_) => g
  }

  /** A request that has been answered cannot be cut off any more. */
  function Kill(g: Gateway, id: RequestId): (m: Gateway)
    requires id in g.requests
    ensures Frame(g, m, id) && SameLogs(g, m) && SameTables(g, m)
    ensures Reached(m.requests[id].stage) == Reached(g.requests[id].stage)
  {
    var stage := g.requests[id].stage;
    if stage.Done? || stage.Dead? then g else Put(g, id, Dead(stage))
  }

  predicate Over(stage: Stage) {
    stage.Done? || stage.Dead?
  }

  /** How far a request has come, whether or not it has been cut off there. */
  function Reached(stage: Stage): Stage {
    if stage.Dead? then stage.at else stage
  }

  /** A request id is used once; events about unknown requests are void. */
  function Apply(g: Gateway, e: Event): Gateway {
    match e
    case Arrive(id, body) => if id in g.requests then g else g.(requests := g.requests[id := Request(body, Received)])
    case Advance(id, input) => if id in g.requests then Step(g, id, input) else g
    case Die(id) => if id in g.requests then Kill(g, id) else g
  }

  function Run(g: Gateway, events: seq<Event>): Gateway {
    if events == [] then g else Apply(Run(g, events[..|events| - 1]), events[|events| - 1])
  }

  lemma {:induction false} RunAppend(g: Gateway, first: seq<Event>, second: seq<Event>)
    ensures Run(g, first + second) == Run(Run(g, first), second)
  {
    if second == [] {
      assert first + second == first;
    } else {
      assert (first + second)[..|first + second| - 1] == first + second[..|second| - 1];
      RunAppend(g, first, second[..|second| - 1]);
    }
  }

  lemma RunFirst(g: Gateway, e: Event, rest: seq<Event>)
    ensures Run(g, [e] + rest) == Run(Apply(g, e), rest)
  {
    RunAppend(g, [e], rest);
    assert [e][..0] == [];
  }

  ghost predicate Initial(g: Gateway) {
    g.requests == map[] && g.orders == [] && g.calls == [] && g.lost == [] && g.created == []
  }

  // ---- Counting the log entries of a request ----

  function CallIds(calls: seq<Call>): multiset<RequestId> {
    if calls == [] then multiset{} else CallIds(calls[..|calls| - 1]) + multiset{calls[|calls| - 1].id}
  }

  /** The requests whose call returned an order. */
  function AcceptedIds(calls: seq<Call>): multiset<RequestId> {
    if calls == [] then multiset{}
    else AcceptedIds(calls[..|calls| - 1])
         + if calls[|calls| - 1].outcome.Success? then multiset{calls[|calls| - 1].id} else multiset{}
  }

  function RowIds(rows: seq<Row>): multiset<RequestId> {
    if rows == [] then multiset{} else RowIds(rows[..|rows| - 1]) + multiset{rows[|rows| - 1].id}
  }

  lemma CallIdsAppend(calls: seq<Call>, call: Call)
    ensures CallIds(calls + [call]) == CallIds(calls) + multiset{call.id}
    ensures AcceptedIds(calls + [call])
         == AcceptedIds(calls) + if call.outcome.Success? then multiset{call.id} else multiset{}
  {
    assert (calls + [call])[..|calls|] == calls;
  }

  lemma RowIdsAppend(rows: seq<Row>, row: Row)
    ensures RowIds(rows + [row]) == RowIds(rows) + multiset{row.id}
  {
    assert (rows + [row])[..|rows|] == rows;
  }

  function StageOf(g: Gateway, id: RequestId): Option<Stage> {
    if id in g.requests then Some(g.requests[id].stage) else None
  }

  predicate HasReplied(st: Option<Stage>) {
    st.Some? && Reached(st.value).Done? && Reached(st.value).reply.Created?
  }

  predicate HasStored(st: Option<Stage>) {
    HasReplied(st) || (st.Some? && Reached(st.value).NeedReply?)
  }

  predicate HasOrder(st: Option<Stage>) {
    HasStored(st) || (st.Some? && Reached(st.value).NeedPersist?)
  }

  predicate HasCalled(st: Option<Stage>) {
    HasOrder(st) || (st.Some? && Reached(st.value) == Done(PlaceFailed))
  }

  function Once(b: bool): nat {
    if b then 1 else 0
  }

  /** A request occurs in each log at most once, and in those given. */
  ghost predicate Tally(g: Gateway, id: RequestId, called: bool, ordered: bool, stored: bool, replied: bool) {
    && CallIds(g.calls)[id] == Once(called)
    && AcceptedIds(g.calls)[id] == Once(ordered)
    && RowIds(g.orders)[id] + RowIds(g.lost)[id] == Once(stored)
    && RowIds(g.created)[id] == Once(replied)
  }

  /** How far a request has come fixes how often it occurs in each log. */
  ghost predicate Accounted(g: Gateway, id: RequestId) {
    var st := StageOf(g, id);
    Tally(g, id, HasCalled(st), HasOrder(st), HasStored(st), HasReplied(st))
  }

  /** Only the three writing stages touch the logs. */
  lemma OthersKeepLogs(g: Gateway, id: RequestId, input: Input)
    requires id in g.requests
    requires var stage := g.requests[id].stage; !stage.NeedPlace? && !stage.NeedPersist? && !stage.NeedReply?
    ensures SameLogs(g, Step(g, id, input))
    ensures !Over(g.requests[id].stage) ==> !HasCalled(Some(Step(g, id, input).requests[id].stage))
    ensures Over(g.requests[id].stage) ==> Step(g, id, input) == g
  {
  }

  lemma TallyCall(g: Gateway, m: Gateway, call: Call, id: RequestId, c: bool, o: bool, s: bool, r: bool)
    requires Tally(g, id, c, o, s, r) && m.calls == g.calls + [call]
    requires m.orders == g.orders && m.lost == g.lost && m.created == g.created
    requires id == call.id ==> !c && !o
    ensures if id == call.id then Tally(m, id, true, call.outcome.Success?, s, r) else Tally(m, id, c, o, s, r)
  {
    CallIdsAppend(g.calls, call);
  }

  lemma TallyStored(g: Gateway, m: Gateway, row: Row, id: RequestId, c: bool, o: bool, s: bool, r: bool)
    requires Tally(g, id, c, o, s, r) && m.calls == g.calls && m.created == g.created
    requires || (m.orders == g.orders + [row] && m.lost == g.lost)
             || (m.orders == g.orders && m.lost == g.lost + [row])
    requires id == row.id ==> !s
    ensures if id == row.id then Tally(m, id, c, o, true, r) else Tally(m, id, c, o, s, r)
  {
    RowIdsAppend(g.orders, row);
    RowIdsAppend(g.lost, row);
  }

  lemma TallyReplied(g: Gateway, m: Gateway, row: Row, id: RequestId, c: bool, o: bool, s: bool, r: bool)
    requires Tally(g, id, c, o, s, r) && m.calls == g.calls && m.orders == g.orders && m.lost == g.lost
    requires m.created == g.created + [row]
    requires id == row.id ==> !r
    ensures if id == row.id then Tally(m, id, c, o, s, true) else Tally(m, id, c, o, s, r)
  {
    RowIdsAppend(g.created, row);
  }

  lemma PlaceAccounted(g: Gateway, m: Gateway, id: RequestId, call: Call, other: RequestId)
    requires Frame(g, m, id) && call.id == id && g.requests[id].stage.NeedPlace? && Accounted(g, other)
    requires m.calls == g.calls + [call] && m.orders == g.orders && m.lost == g.lost && m.created == g.created
    requires if call.outcome.Success? then m.requests[id].stage.NeedPersist? else m.requests[id].stage == Done(PlaceFailed)
    ensures Accounted(m, other)
  {
    var st := StageOf(g, other);
    TallyCall(g, m, call, other, HasCalled(st), HasOrder(st), HasStored(st), HasReplied(st));
  }

  lemma PersistAccounted(g: Gateway, m: Gateway, id: RequestId, row: Row, other: RequestId)
    requires Frame(g, m, id) && row.id == id && g.requests[id].stage.NeedPersist? && Accounted(g, other)
    requires m.calls == g.calls && m.created == g.created && m.requests[id].stage.NeedReply?
    requires || (m.orders == g.orders + [row] && m.lost == g.lost)
             || (m.orders == g.orders && m.lost == g.lost + [row])
    ensures Accounted(m, other)
  {
    var st := StageOf(g, other);
    TallyStored(g, m, row, other, HasCalled(st), HasOrder(st), HasStored(st), HasReplied(st));
  }

  lemma ReplyAccounted(g: Gateway, m: Gateway, id: RequestId, row: Row, other: RequestId)
    requires Frame(g, m, id) && row.id == id && g.requests[id].stage.NeedReply? && Accounted(g, other)
    requires m.calls == g.calls && m.orders == g.orders && m.lost == g.lost && m.created == g.created + [row]
    requires m.requests[id].stage.Done? && m.requests[id].stage.reply.Created?
    ensures Accounted(m, other)
  {
    var st := StageOf(g, other);
    TallyReplied(g, m, row, other, HasCalled(st), HasOrder(st), HasStored(st), HasReplied(st));
  }

  lemma UnloggedAccounted(g: Gateway, m: Gateway, id: RequestId, other: RequestId)
    requires Frame(g, m, id) && SameLogs(g, m) && Accounted(g, other)
    requires !HasCalled(Some(g.requests[id].stage)) && !HasCalled(Some(m.requests[id].stage))
    ensures Accounted(m, other)
  {
  }

  lemma StepKeepsAccounted(g: Gateway, m: Gateway, id: RequestId, input: Input, other: RequestId)
    requires id in g.requests && Accounted(g, other) && m == Step(g, id, input)
    ensures Accounted(m, other)
  {
    var stage := g.requests[id].stage;
    if stage.NeedPlace? {
      assert m == Place(g, id, stage.order, stage.evidence, input);
      PlaceAccounted(g, m, id, Call(id, stage.order, stage.evidence, input.placed), other);
    } else if stage.NeedPersist? {
      assert m == Persist(g, id, stage.placed, input);
      PersistAccounted(g, m, id, Row(id, stage.placed), other);
    } else if stage.NeedReply? {
      assert m == ReplyCreated(g, id, stage.placed);
      ReplyAccounted(g, m, id, Row(id, stage.placed), other);
    } else {
      OthersKeepLogs(g, id, input);
      if !Over(stage) {
        UnloggedAccounted(g, m, id, other);
      }
    }
  }

  lemma ArriveKeepsAccounted(g: Gateway, m: Gateway, id: RequestId, other: RequestId)
    requires Accounted(g, other) && SameLogs(g, m) && id !in g.requests
    requires id in m.requests && m.requests[id].stage.Received?
    requires m.requests == g.requests[id := m.requests[id]]
    ensures Accounted(m, other)
  {
  }

  lemma KillKeepsAccounted(g: Gateway, m: Gateway, id: RequestId, other: RequestId)
    requires Accounted(g, other) && id in g.requests && m == Kill(g, id)
    ensures Accounted(m, other)
  {
    assert other in g.requests && other != id ==> m.requests[other] == g.requests[other];
    SameProgress(g, m, other);
  }

  lemma SameProgress(g: Gateway, m: Gateway, id: RequestId)
    requires Accounted(g, id) && SameLogs(g, m) && (id in g.requests <==> id in m.requests)
    requires id in g.requests ==> Reached(m.requests[id].stage) == Reached(g.requests[id].stage)
    ensures Accounted(m, id)
  {
    var before, after := StageOf(g, id), StageOf(m, id);
    assert HasReplied(after) == HasReplied(before) && HasStored(after) == HasStored(before);
    assert HasOrder(after) == HasOrder(before) && HasCalled(after) == HasCalled(before);
  }

  lemma ApplyKeepsAccounted(g: Gateway, m: Gateway, e: Event, id: RequestId)
    requires Accounted(g, id) && m == Apply(g, e)
    ensures Accounted(m, id)
  {
    if e.Advance? && e.id in g.requests {
      StepKeepsAccounted(g, m, e.id, e.input, id);
    } else if e.Arrive? && e.id !in g.requests {
      ArriveKeepsAccounted(g, m, e.id, id);
    } else if e.Die? && e.id in g.requests {
      KillKeepsAccounted(g, m, e.id, id);
    }
  }

  lemma {:induction false} RunKeepsAccounted(g: Gateway, events: seq<Event>, id: RequestId)
    requires Accounted(g, id)
    ensures Accounted(Run(g, events), id)
  {
    if events != [] {
      RunKeepsAccounted(g, events[..|events| - 1], id);
      ApplyKeepsAccounted(Run(g, events[..|events| - 1]), Run(g, events), events[|events| - 1], id);
    }
  }

  /**
   * In every run each request calls PlaceOrder at most once. A row or a 201
   * reply takes a call that returned an order; a request refused before the
   * call never reaches the broker, and one whose call failed is never persisted.
   */
  lemma AtMostOneCall(start: Gateway, events: seq<Event>, id: RequestId)
    requires Initial(start)
    ensures var g := Run(start, events);
            && CallIds(g.calls)[id] <= 1
            && RowIds(g.created)[id] <= AcceptedIds(g.calls)[id] <= CallIds(g.calls)[id]
            && RowIds(g.orders)[id] + RowIds(g.lost)[id] <= AcceptedIds(g.calls)[id]
    ensures var g := Run(start, events);
            id in g.requests && g.requests[id].stage.Done? ==>
              match g.requests[id].stage.reply
              case Created(_) => AcceptedIds(g.calls)[id] == 1
              case PlaceFailed => CallIds(g.calls)[id] == 1 && RowIds(g.orders)[id] == 0
              case _ => CallIds(g.calls)[id] == 0
  {
    RunKeepsAccounted(start, events, id);
  }

  // ---- What the entries say ----

  /** The row is what the broker returned for that request, under the requester's id. */
  predicate ReturnedFor(calls: seq<Call>, id: RequestId, order: Order) {
    exists i :: 0 <= i < |calls| && calls[i].id == id && calls[i].outcome.Success?
                && order == Stamp(calls[i].outcome.value, id.user)
  }

  predicate RowsReturned(g: Gateway, rows: seq<Row>) {
    forall i :: 0 <= i < |rows| ==> ReturnedFor(g.calls, rows[i].id, rows[i].order)
  }

  /** An Alpaca order has been through the gate, on rows fetched in the same request; other orders have not. */
  predicate Gated(g: Gateway, user: UserId, order: CheckedOrder, evidence: Option<Evidence>) {
    if order.broker == Alpaca then
      && evidence.Some?
      && evidence.value.trades == RecentTrades(g.dayTrades, user, Alpaca, evidence.value.fetchedAt)
      && !Decision(evidence.value.account, user, Alpaca, evidence.value.trades, evidence.value.checkedAt).restricted
    else evidence.None?
  }

  predicate StageSound(g: Gateway, id: RequestId)
    requires id in g.requests
  {
    var r := g.requests[id];
    match Reached(r.stage)
    case NeedAccount(order) => order.broker == Alpaca && AskedFor(r.body, order)
    case NeedTrades(order, _) => order.broker == Alpaca && AskedFor(r.body, order)
    case NeedGate(order, _, trades, at) =>
      order.broker == Alpaca && AskedFor(r.body, order) && trades == RecentTrades(g.dayTrades, id.user, Alpaca, at)
    case NeedPlace(order, evidence) => AskedFor(r.body, order) && Gated(g, id.user, order, evidence)
    case NeedPersist(order) => ReturnedFor(g.calls, id, order)
    case NeedReply(order) => ReturnedFor(g.calls, id, order)
    case _ => true
  }

  /** The order is the one the request's form asks for. */
  predicate AskedFor(body: Body, order: CheckedOrder) {
    body.CreateOrder? && Validate(body.form) == Some(order)
  }

  predicate CallSound(g: Gateway, call: Call) {
    call.id in g.requests && AskedFor(g.requests[call.id].body, call.order)
    && Gated(g, call.id.user, call.order, call.evidence)
  }

  ghost predicate Sound(g: Gateway) {
    && (forall id :: id in g.requests ==> StageSound(g, id))
    && (forall i :: 0 <= i < |g.calls| ==> CallSound(g, g.calls[i]))
    && RowsReturned(g, g.orders) && RowsReturned(g, g.lost) && RowsReturned(g, g.created)
  }

  lemma ReturnedMonotone(calls: seq<Call>, call: Call, id: RequestId, order: Order)
    requires ReturnedFor(calls, id, order)
    ensures ReturnedFor(calls + [call], id, order)
  {
    var i :| 0 <= i < |calls| && calls[i].id == id && calls[i].outcome.Success?
             && order == Stamp(calls[i].outcome.value, id.user);
    assert (calls + [call])[i] == calls[i];
  }

  lemma MoreCallsKeepStageSound(g: Gateway, m: Gateway, id: RequestId, call: Call)
    requires id in g.requests && id in m.requests && m.requests[id] == g.requests[id] && StageSound(g, id)
    requires m.dayTrades == g.dayTrades && m.calls == g.calls + [call]
    ensures StageSound(m, id)
  {
    var stage := Reached(g.requests[id].stage);
    if stage.NeedPersist? || stage.NeedReply? {
      ReturnedMonotone(g.calls, call, id, stage.placed);
    }
  }

  lemma MoreCallsKeepRowsReturned(g: Gateway, m: Gateway, rows: seq<Row>, call: Call)
    requires RowsReturned(g, rows) && m.calls == g.calls + [call]
    ensures RowsReturned(m, rows)
  {
    forall i | 0 <= i < |rows|
      ensures ReturnedFor(m.calls, rows[i].id, rows[i].order)
    {
      ReturnedMonotone(g.calls, call, rows[i].id, rows[i].order);
    }
  }

  /** Placing an order adds a call and disturbs nothing that was established. */
  lemma PlaceKeepsSound(g: Gateway, m: Gateway, id: RequestId, call: Call)
    requires id in g.requests && Sound(g) && call.id == id
    requires g.requests[id].stage == NeedPlace(call.order, call.evidence)
    requires m.calls == g.calls + [call] && m.dayTrades == g.dayTrades
    requires m.orders == g.orders && m.lost == g.lost && m.created == g.created
    requires m.requests == g.requests[id := g.requests[id].(stage :=
               if call.outcome.Failure? then Done(PlaceFailed) else NeedPersist(Stamp(call.outcome.value, id.user)))]
    ensures Sound(m)
  {
    assert StageSound(g, id);
    assert m.calls[|g.calls|] == call;
    assert call.outcome.Success? ==> ReturnedFor(m.calls, id, Stamp(call.outcome.value, id.user));
    forall other | other in m.requests
      ensures StageSound(m, other)
    {
      if other != id {
        MoreCallsKeepStageSound(g, m, other, call);
      }
    }
    forall i | 0 <= i < |m.calls|
      ensures CallSound(m, m.calls[i])
    {
      assert i < |g.calls| ==> CallSound(g, g.calls[i]);
    }
    MoreCallsKeepRowsReturned(g, m, g.orders, call);
    MoreCallsKeepRowsReturned(g, m, g.lost, call);
    MoreCallsKeepRowsReturned(g, m, g.created, call);
  }

  lemma BeginStageSound(g: Gateway, id: RequestId, input: Input)
    requires id in g.requests
    ensures StageSound(Begin(g, id, input), id)
  {
  }

  lemma GateStageSound(g: Gateway, id: RequestId, order: CheckedOrder, evidence: Evidence)
    requires id in g.requests && order.broker == Alpaca && AskedFor(g.requests[id].body, order)
    requires evidence.trades == RecentTrades(g.dayTrades, id.user, Alpaca, evidence.fetchedAt)
    ensures StageSound(Check(g, id, order, evidence), id)
  {
  }

  lemma OrderStepSound(g: Gateway, id: RequestId, stage: Stage, input: Input)
    requires id in g.requests && g.requests[id].stage == stage && StageSound(g, id)
    requires Placing(stage) && !stage.NeedPlace?
    ensures StageSound(OrderStep(g, id, stage, input), id)
  {
    match stage {
      case NeedAccount(_) =>
      case NeedTrades(_, _) =>
      case NeedGate(order, account, trades, fetchedAt) =>
        GateStageSound(g, id, order, Evidence(account, trades, fetchedAt, input.now));
      case NeedPersist(_) =>
      case NeedReply(_) =>
    }
  }

  /** Any step but a call to the broker moves a request from a sound stage to a sound stage. */
  lemma MoveKeepsStageSound(g: Gateway, id: RequestId, input: Input)
    requires id in g.requests && StageSound(g, id) && !g.requests[id].stage.NeedPlace?
    ensures StageSound(Step(g, id, input), id)
  {
    if Placing(g.requests[id].stage) {
      OrderStepSound(g, id, g.requests[id].stage, input);
    } else if g.requests[id].stage.Received? {
      BeginStageSound(g, id, input);
    }
  }

  lemma AppendReturned(g: Gateway, m: Gateway, rows: seq<Row>, row: Row)
    requires RowsReturned(g, rows) && m.calls == g.calls && ReturnedFor(g.calls, row.id, row.order)
    ensures RowsReturned(m, rows + [row])
  {
  }

  /** And the rows it adds were returned by the broker. */
  lemma MoveKeepsRowsReturned(g: Gateway, id: RequestId, input: Input)
    requires id in g.requests && Sound(g) && !g.requests[id].stage.NeedPlace?
    ensures var m := Step(g, id, input); RowsReturned(m, m.orders) && RowsReturned(m, m.lost) && RowsReturned(m, m.created)
    ensures Step(g, id, input).calls == g.calls
  {
    assert StageSound(g, id);
    var m, stage := Step(g, id, input), g.requests[id].stage;
    if stage.NeedPersist? || stage.NeedReply? {
      AppendReturned(g, m, g.orders, Row(id, stage.placed));
      AppendReturned(g, m, g.lost, Row(id, stage.placed));
      AppendReturned(g, m, g.created, Row(id, stage.placed));
    } else {
      OthersKeepLogs(g, id, input);
    }
  }

  lemma StepKeepsSound(g: Gateway, id: RequestId, input: Input)
    requires id in g.requests && Sound(g)
    ensures Sound(Step(g, id, input))
  {
    if g.requests[id].stage.NeedPlace? {
      var stage := g.requests[id].stage;
      PlaceKeepsSound(g, Step(g, id, input), id, Call(id, stage.order, stage.evidence, input.placed));
    } else {
      assert StageSound(g, id);
      MoveKeepsStageSound(g, id, input);
      MoveKeepsRowsReturned(g, id, input);
      SameCallsKeepSound(g, Step(g, id, input), id);
    }
  }

  lemma SameCallsKeepSound(g: Gateway, m: Gateway, id: RequestId)
    requires Sound(g) && m.calls == g.calls && m.dayTrades == g.dayTrades
    requires m.requests.Keys == g.requests.Keys + {id} && StageSound(m, id)
    requires id in g.requests ==> m.requests[id].body == g.requests[id].body
    requires forall other :: other in g.requests && other != id ==> m.requests[other] == g.requests[other]
    requires RowsReturned(m, m.orders) && RowsReturned(m, m.lost) && RowsReturned(m, m.created)
    ensures Sound(m)
  {
    forall other | other in m.requests
      ensures StageSound(m, other)
    {
      assert other != id ==> StageSound(g, other);
    }
    forall i | 0 <= i < |m.calls|
      ensures CallSound(m, m.calls[i])
    {
      assert CallSound(g, g.calls[i]);
    }
  }

  lemma {:induction false} RunKeepsSound(g: Gateway, events: seq<Event>)
    requires Sound(g)
    ensures Sound(Run(g, events)) && Run(g, events).dayTrades == g.dayTrades
  {
    if events != [] {
      var before, e := Run(g, events[..|events| - 1]), events[|events| - 1];
      RunKeepsSound(g, events[..|events| - 1]);
      if e.Advance? && e.id in before.requests {
        StepKeepsSound(before, e.id, e.input);
      } else if e.Arrive? && e.id !in before.requests {
        SameCallsKeepSound(before, Apply(before, e), e.id);
      } else if e.Die? && e.id in before.requests {
        assert StageSound(before, e.id);
        SameCallsKeepSound(before, Apply(before, e), e.id);
      }
    }
  }

  /** Every row carries its requester's id and is what the broker returned for that request's own form. */
  lemma RowsBelongToRequesters(start: Gateway, events: seq<Event>, row: Row)
    requires Initial(start)
    requires var g := Run(start, events); row in g.orders || row in g.lost || row in g.created
    ensures row.order.userId == row.id.user
    ensures row.id in Run(start, events).requests
    ensures exists call :: call in Run(start, events).calls && call.id == row.id && call.outcome.Success?
                           && row.order == call.outcome.value.(userId := row.id.user)
                           && AskedFor(Run(start, events).requests[row.id].body, call.order)
  {
    RunKeepsSound(start, events);
    var g := Run(start, events);
    assert ReturnedFor(g.calls, row.id, row.order);
    var i :| 0 <= i < |g.calls| && g.calls[i].id == row.id && g.calls[i].outcome.Success?
             && row.order == Stamp(g.calls[i].outcome.value, row.id.user);
    assert CallSound(g, g.calls[i]) && g.calls[i] in g.calls;
  }

  /** Orders that go to other brokers are not gated: the rule is about US margin accounts. */
  lemma OthersNotGated(start: Gateway, events: seq<Event>, call: Call)
    requires Initial(start)
    requires call in Run(start, events).calls && call.order.broker != Alpaca
    ensures call.evidence.None?
  {
    RunKeepsSound(start, events);
    var g := Run(start, events);
    var i :| 0 <= i < |g.calls| && g.calls[i] == call;
    assert CallSound(g, g.calls[i]);
  }

  // ---- Conservation ----

  /** The orders the brokers returned, as they are to be persisted and replied. */
  function ReturnedRows(calls: seq<Call>): seq<Row> {
    if calls == [] then []
    else ReturnedRows(calls[..|calls| - 1]) + ReturnedRow(calls[|calls| - 1])
  }

  function ReturnedRow(call: Call): seq<Row> {
    if call.outcome.Success? then [Row(call.id, Stamp(call.outcome.value, call.id.user))] else []
  }

  lemma {:induction false} RowIdsConcat(a: seq<Row>, b: seq<Row>)
    ensures RowIds(a + b) == RowIds(a) + RowIds(b)
  {
    if b == [] {
      assert a + b == a;
    } else {
      assert (a + b)[..|a + b| - 1] == a + b[..|b| - 1];
      RowIdsConcat(a, b[..|b| - 1]);
    }
  }

  lemma {:induction false} ReturnedRowsIds(calls: seq<Call>)
    ensures RowIds(ReturnedRows(calls)) == AcceptedIds(calls)
  {
    if calls != [] {
      var before, call := calls[..|calls| - 1], calls[|calls| - 1];
      ReturnedRowsIds(before);
      RowIdsConcat(ReturnedRows(before), ReturnedRow(call));
      assert call.outcome.Success? ==> ReturnedRow(call)[..0] == [];
    }
  }

  lemma {:induction false} ReturnedAmongRows(calls: seq<Call>, i: nat)
    requires i < |calls| && calls[i].outcome.Success?
    ensures Row(calls[i].id, Stamp(calls[i].outcome.value, calls[i].id.user)) in ReturnedRows(calls)
  {
    if i < |calls| - 1 {
      ReturnedAmongRows(calls[..|calls| - 1], i);
    }
  }

  /** How often a row occurs, and which rows there are, where no id occurs twice. */
  lemma {:induction false} RowCount(rows: seq<Row>, row: Row)
    ensures row in rows ==> RowIds(rows)[row.id] > 0
    ensures multiset(rows)[row] <= RowIds(rows)[row.id]
    ensures RowIds(rows)[row.id] > 0 ==> exists r :: r in rows && r.id == row.id
  {
    if rows != [] {
      var before, last := rows[..|rows| - 1], rows[|rows| - 1];
      RowCount(before, row);
      assert rows == before + [last];
    }
  }

  lemma {:induction false} OneRowPerId(rows: seq<Row>, r1: Row, r2: Row)
    requires r1 in rows && r2 in rows && r1.id == r2.id && RowIds(rows)[r1.id] <= 1
    ensures r1 == r2
  {
    var before, last := rows[..|rows| - 1], rows[|rows| - 1];
    assert rows == before + [last];
    RowCount(before, r1);
    RowCount(before, r2);
    if r1 != last && r2 != last {
      OneRowPerId(before, r1, r2);
    }
  }

  lemma OneRow(rows: seq<Row>, r: Row, row: Row)
    requires r in rows && r.id == row.id && RowIds(rows)[row.id] <= 1
    ensures multiset(rows)[row] == Once(row == r)
  {
    RowCount(rows, row);
    if row in rows {
      OneRowPerId(rows, r, row);
    }
  }

  lemma ReturnedRowsContain(g: Gateway, rows: seq<Row>)
    requires RowsReturned(g, rows)
    ensures forall row :: row in rows ==> row in ReturnedRows(g.calls)
  {
    forall row | row in rows
      ensures row in ReturnedRows(g.calls)
    {
      var k :| 0 <= k < |rows| && rows[k] == row;
      assert ReturnedFor(g.calls, rows[k].id, rows[k].order);
      var i :| 0 <= i < |g.calls| && g.calls[i].id == row.id && g.calls[i].outcome.Success?
               && row.order == Stamp(g.calls[i].outcome.value, row.id.user);
      ReturnedAmongRows(g.calls, i);
    }
  }

  /** The broker returned this order to a request that has not tried to persist it yet. */
  predicate AwaitsPersist(g: Gateway, row: Row) {
    row.id in g.requests && Reached(g.requests[row.id].stage) == NeedPersist(row.order)
  }

  /** Or has not replied yet. */
  predicate AwaitsReply(g: Gateway, row: Row) {
    AwaitsPersist(g, row) || (row.id in g.requests && Reached(g.requests[row.id].stage) == NeedReply(row.order))
  }

  /** A log that has no entry for the request, or the one the broker returned to it. */
  lemma LogCount(g: Gateway, rows: seq<Row>, row: Row)
    requires RowsReturned(g, rows) && RowIds(rows)[row.id] <= AcceptedIds(g.calls)[row.id] <= 1
    ensures RowIds(rows)[row.id] == 1 ==> multiset(rows)[row] == multiset(ReturnedRows(g.calls))[row]
    ensures RowIds(rows)[row.id] == 0 ==> multiset(rows)[row] == 0
  {
    RowCount(rows, row);
    ReturnedRowsIds(g.calls);
    if RowIds(rows)[row.id] == 1 {
      var r :| r in rows && r.id == row.id;
      ReturnedRowsContain(g, rows);
      OneRow(rows, r, row);
      OneRow(ReturnedRows(g.calls), r, row);
    }
  }

  /** What a request that has its order and has not logged it carries is what the broker returned. */
  lemma CarriedCount(g: Gateway, row: Row, order: Order)
    requires ReturnedFor(g.calls, row.id, order) && AcceptedIds(g.calls)[row.id] <= 1
    ensures multiset(ReturnedRows(g.calls))[row] == Once(row.order == order)
  {
    ReturnedRowsIds(g.calls);
    var carried := Row(row.id, order);
    assert RowsReturned(g, [carried]);
    ReturnedRowsContain(g, [carried]);
    assert carried in [carried];
    OneRow(ReturnedRows(g.calls), carried, row);
  }

  lemma NothingReturned(g: Gateway, row: Row)
    requires AcceptedIds(g.calls)[row.id] == 0
    ensures multiset(ReturnedRows(g.calls))[row] == 0
  {
    ReturnedRowsIds(g.calls);
    RowCount(ReturnedRows(g.calls), row);
  }

  /** Every order the broker returned is replied, or carried by a request that has not replied. */
  lemma RepliedOrCarried(g: Gateway, row: Row)
    requires Accounted(g, row.id) && RowsReturned(g, g.created) && (row.id in g.requests ==> StageSound(g, row.id))
    ensures multiset(g.created)[row] + Once(AwaitsReply(g, row)) == multiset(ReturnedRows(g.calls))[row]
  {
    var st := StageOf(g, row.id);
    LogCount(g, g.created, row);
    if !HasOrder(st) {
      NothingReturned(g, row);
    } else if !HasReplied(st) {
      CarriedCount(g, row, Reached(st.value).placed);
    }
  }

  /** Every order the broker returned is in the ledger, lost, or carried by a request that has not tried to persist it. */
  lemma PersistedOrCarried(g: Gateway, row: Row)
    requires Accounted(g, row.id) && RowsReturned(g, g.orders) && RowsReturned(g, g.lost)
    requires row.id in g.requests ==> StageSound(g, row.id)
    ensures multiset(g.orders)[row] + multiset(g.lost)[row] + Once(AwaitsPersist(g, row))
         == multiset(ReturnedRows(g.calls))[row]
  {
    var st := StageOf(g, row.id);
    LogCount(g, g.orders, row);
    LogCount(g, g.lost, row);
    if !HasOrder(st) {
      NothingReturned(g, row);
    } else if !HasStored(st) {
      CarriedCount(g, row, Reached(st.value).placed);
    }
  }

  /**
   * Conservation in every state of every run: each order a broker has returned,
   * stamped with its requester's id, has been answered with 201 unless its
   * request, alive or cut off by a restart, stands between the call and the
   * reply; and it is persisted or its persist failed, unless the request stands
   * between the call and the persist. Nothing else is ever replied or stored.
   */
  lemma NoOrderUnaccounted(start: Gateway, events: seq<Event>, row: Row)
    requires Initial(start)
    ensures var g := Run(start, events);
            && multiset(g.created)[row] + Once(AwaitsReply(g, row)) == multiset(ReturnedRows(g.calls))[row]
            && multiset(g.orders)[row] + multiset(g.lost)[row] + Once(AwaitsPersist(g, row))
               == multiset(ReturnedRows(g.calls))[row]
  {
    RunKeepsSound(start, events);
    RunKeepsAccounted(start, events, row.id);
    RepliedOrCarried(Run(start, events), row);
    PersistedOrCarried(Run(start, events), row);
  }

  /** No request, alive or cut off, stands between the broker's answer and its own reply. */
  ghost predicate NoneBetween(g: Gateway) {
    forall id :: id in g.requests ==>
      !Reached(g.requests[id].stage).NeedPersist? && !Reached(g.requests[id].stage).NeedReply?
  }

  /**
   * So once no request stands there, the 201 replies are exactly the orders
   * the brokers returned, and these are exactly the persisted rows plus the
   * failed persists.
   */
  lemma RepliesMatchOrders(start: Gateway, events: seq<Event>)
    requires Initial(start) && NoneBetween(Run(start, events))
    ensures var g := Run(start, events);
            && multiset(g.created) == multiset(ReturnedRows(g.calls))
            && multiset(g.orders) + multiset(g.lost) == multiset(ReturnedRows(g.calls))
  {
    var g := Run(start, events);
    forall row: Row
      ensures multiset(g.created)[row] == multiset(ReturnedRows(g.calls))[row]
           && (multiset(g.orders) + multiset(g.lost))[row] == multiset(ReturnedRows(g.calls))[row]
    {
      NoOrderUnaccounted(start, events, row);
    }
  }
}
