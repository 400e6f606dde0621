/**
 * Where the gateway and the token protocol meet. One user's Questrade calls,
 * in any interleaving of all users' requests, are a run of TokenRotation as
 * long as the user has one token lineage: the token endpoint accepts only the
 * newest token, and the configured token does not change under the calls.
 */
module TokenLineage {
  import opened Wrappers
  import opened Models
  import opened Credentials
  import opened Gateway
  import Isolation
  import R = TokenRotation

  /** A user, the generation of each token, and that of the token in the user's credentials. */
  datatype Lineage = Lineage(user: UserId, number: string -> R.Token, configured: R.Token)

  /** The gateway, the one generation the endpoint accepts from the user, and the requests nobody waits for. */
  datatype World = World(gateway: Gateway, current: R.Token, abandoned: set<R.Token>)

  datatype Happening =
    | Happens(event: Event)
    | ServesAbandoned(token: R.Token)

  // ---- What the lineage demands of a happening ----

  function TokenIn(secrets: Secrets): string {
    if "refresh_token" in secrets then secrets["refresh_token"] else ""
  }

  /** The request, if it writes Questrade credentials, writes the configured token. */
  predicate KeepsToken(l: Lineage, body: Body) {
    match body
    case SaveCredential(name, secrets) =>
      secrets.Some? && ParseBroker(name) == Some(Questrade) ==> l.number(TokenIn(secrets.value)) == l.configured
    case ImportCredentials(env) => KeepsEnv(l, env)
    case _ => true
  }

  predicate KeepsEnv(l: Lineage, env: EnvConfig) {
    env.questradeToken != "" ==> l.number(env.questradeToken) == l.configured
  }

  /** Single use: the newest token is replaced by its successor, any other is refused. */
  predicate SingleUse(l: Lineage, w: World, token: string, exchange: Exchange) {
    match exchange
    case Issued(grant) =>
      l.number(token) == w.current && l.number(grant.refreshToken) == w.current + 1 && grant.refreshToken != ""
    case Refused => l.number(token) != w.current
    case _ => true
  }

  predicate Lawful(l: Lineage, w: World, h: Happening) {
    match h
    case ServesAbandoned(token) => token in w.abandoned
    case Happens(Arrive(id, body)) => id.user == l.user ==> KeepsToken(l, body)
    case Happens(Advance(id, input)) =>
      InExchange(l, w.gateway, id) ==> SingleUse(l, w, w.gateway.requests[id].stage.token, input.exchange)
    case Happens(Die(_)) => true
  }

  predicate InExchange(l: Lineage, g: Gateway, id: RequestId) {
    id.user == l.user && id in g.requests && g.requests[id].stage.Exchanging?
  }

  function NextGateway(g: Gateway, h: Happening): Gateway {
    if h.Happens? then Apply(g, h.event) else g
  }

  /** What the endpoint accepts next. */
  function NextCurrent(l: Lineage, w: World, h: Happening): R.Token {
    match h
    case ServesAbandoned(token) => if token == w.current then w.current + 1 else w.current
    case Happens(Arrive(_, _)) => w.current
    case Happens(Advance(id, input)) =>
      if InExchange(l, w.gateway, id) && input.exchange.Issued? then w.current + 1 else w.current
    case Happens(Die(_)) => w.current
  }

  /** A client that gives up on an exchange, or dies in one, leaves its request travelling. */
  function NextAbandoned(l: Lineage, w: World, h: Happening): set<R.Token> {
    match h
    case ServesAbandoned(_) => w.abandoned
    case Happens(Arrive(_, _)) => w.abandoned
    case Happens(Advance(id, input)) =>
      if InExchange(l, w.gateway, id) && input.exchange.GivenUp?
      then w.abandoned + {l.number(w.gateway.requests[id].stage.token)} else w.abandoned
    case Happens(Die(id)) =>
      if InExchange(l, w.gateway, id)
      then w.abandoned + {l.number(w.gateway.requests[id].stage.token)} else w.abandoned
  }

  function Happened(l: Lineage, w: World, h: Happening): World {
    World(NextGateway(w.gateway, h), NextCurrent(l, w, h), NextAbandoned(l, w, h))
  }

  predicate AllLawful(l: Lineage, w: World, hs: seq<Happening>)
    decreases |hs|
  {
    hs == [] || (Lawful(l, w, hs[0]) && AllLawful(l, Happened(l, w, hs[0]), hs[1..]))
  }

  function After(l: Lineage, w: World, hs: seq<Happening>): World
    decreases |hs|
  {
    if hs == [] then w else After(l, Happened(l, w, hs[0]), hs[1..])
  }

  /** The gateway's events among the happenings. */
  function EventsIn(hs: seq<Happening>): seq<Event> {
    if hs == [] then [] else (if hs[0].Happens? then [hs[0].event] else []) + EventsIn(hs[1..])
  }

  /** The gateway goes its own way: the lineage only says what the endpoint answers. */
  lemma {:induction false} GatewayRuns(l: Lineage, w: World, hs: seq<Happening>)
    ensures After(l, w, hs).gateway == Run(w.gateway, EventsIn(hs))
    decreases |hs|
  {
    if hs != [] {
      GatewayRuns(l, Happened(l, w, hs[0]), hs[1..]);
      if hs[0].Happens? {
        RunFirst(w.gateway, hs[0].event, EventsIn(hs[1..]));
      } else {
        assert [] + EventsIn(hs[1..]) == EventsIn(hs[1..]);
      }
    }
  }

  // ---- The protocol state that a world mirrors ----

  function StoredRow(l: Lineage, g: Gateway): Option<R.Token> {
    if (l.user, Questrade) in g.tokens && g.tokens[(l.user, Questrade)] != ""
    then Some(l.number(g.tokens[(l.user, Questrade)])) else None
  }

  /** The client that a request has in hand. */
  function ClientIn(l: Lineage, stage: Stage): Option<R.Client> {
    match stage
    case NeedToken(token) => Some(R.Client(l.number(token), false, R.Loading))
    case NeedExchange(token, _) => Some(R.Client(l.number(token), true, R.Ready))
    case Exchanging(token, _) => Some(R.Client(l.number(token), true, R.Sent))
    case NeedTokenReply(token, grant, _) =>
      Some(R.Client(l.number(token), true, R.Granted(l.number(grant.refreshToken))))
    case NeedTokenSave(issued, _, _) => Some(R.Client(l.number(issued), true, R.Saving))
    case NeedAnswer(token, _, _) => Some(R.Client(l.number(token), true, R.Idle))
    case _ => None
  }

  /** A client goes by the number of its request. */
  function ClientOf(l: Lineage, g: Gateway, c: R.ClientId): Option<R.Client> {
    var id := RequestId(l.user, c);
    if id in g.requests then ClientIn(l, g.requests[id].stage) else None
  }

  predicate SameClient(l: Lineage, g: Gateway, n: R.Net, c: R.ClientId) {
    ClientOf(l, g, c) == if c in n.clients then Some(n.clients[c]) else None
  }

  ghost predicate Mirrors(l: Lineage, w: World, n: R.Net) {
    && n.current == w.current && n.abandoned == w.abandoned
    && n.configured == l.configured && n.row == StoredRow(l, w.gateway)
    && forall c: R.ClientId :: SameClient(l, w.gateway, n, c)
  }

  /** Every token on its way into the user's credentials, and the one in them, is the configured one. */
  ghost predicate OneConfigured(l: Lineage, g: Gateway) {
    && ((l.user, Questrade) in g.credentials ==>
          l.number(TokenIn(g.credentials[(l.user, Questrade)])) == l.configured)
    && forall id :: id in g.requests && id.user == l.user ==> RequestKeeps(l, g.requests[id])
  }

  predicate RequestKeeps(l: Lineage, r: Request) {
    && KeepsToken(l, r.body)
    && (r.stage.Importing? ==> KeepsEnv(l, r.stage.env))
    && (r.stage.NeedToken? ==> l.number(r.stage.configured) == l.configured)
    && (r.stage.NeedTokenReply? ==> r.stage.grant.refreshToken != "")
    && (r.stage.NeedTokenSave? ==> r.stage.issued != "")
  }

  // ---- The steps of the protocol behind a happening ----

  function TokenSteps(c: R.ClientId, stage: Stage, input: Input): seq<R.Step>
    requires Rotating(stage)
  {
    match stage
    case NeedToken(_) => if input.storeOk then [R.LoadOk(c)] else [R.LoadFailed(c)]
    case NeedExchange(_, _) => [R.Send(c)]
    case Exchanging(_, _) =>
      (match input.exchange
       case Failed => [R.Fail(c), R.Discard(c)]
       case GivenUp => [R.GiveUp(c), R.Discard(c)]
       case Refused => [R.Serve(c), R.Discard(c)]
       case Issued(_) => [R.Serve(c)])
    case NeedTokenReply(_, _, _) => if input.answered then [R.Receive(c)] else [R.LoseReply(c), R.Discard(c)]
    case NeedTokenSave(_, _, _) => if input.storeOk then [R.SaveOk(c)] else [R.SaveFailed(c)]
    case NeedAnswer(_, access, more) =>
      if !input.answered || !more then [R.Discard(c)]
      else if access.Good(input.now) then [R.CachedReturn(c)]
      else [R.Begin(c)]
  }

  /** A connected user's call starts with a new client and goes straight to the token. */
  predicate StartsClient(l: Lineage, g: Gateway, id: RequestId, input: Input)
    requires id in g.requests
  {
    g.requests[id] == Request(QuestradeCall, Received) && input.storeOk && (l.user, Questrade) in g.credentials
  }

  function StepsOf(l: Lineage, w: World, h: Happening): seq<R.Step> {
    match h
    case ServesAbandoned(token) => [R.ServeAbandoned(token)]
    case Happens(Arrive(_, _)) => []
    case Happens(Advance(id, input)) =>
      if id.user != l.user || id !in w.gateway.requests then []
      else if Rotating(w.gateway.requests[id].stage) then TokenSteps(id.number, w.gateway.requests[id].stage, input)
      else if StartsClient(l, w.gateway, id, input) then [R.Start(id.number), R.Begin(id.number)]
      else []
    case Happens(Die(id)) => if HasClient(l, w.gateway, id) then [R.Discard(id.number)] else []
  }

  predicate HasClient(l: Lineage, g: Gateway, id: RequestId) {
    id.user == l.user && id in g.requests && Rotating(g.requests[id].stage)
  }

  function Trace(l: Lineage, w: World, hs: seq<Happening>): seq<R.Step>
    decreases |hs|
  {
    if hs == [] then [] else StepsOf(l, w, hs[0]) + Trace(l, Happened(l, w, hs[0]), hs[1..])
  }

  lemma RunOne(n: R.Net, s: R.Step)
    requires R.Enabled(n, s)
    ensures R.Possible(n, [s]) && R.Run(n, [s]) == R.Apply(n, s)
  {
    assert [s][1..] == [];
  }

  lemma RunTwo(n: R.Net, s: R.Step, t: R.Step)
    requires R.Enabled(n, s) && R.Enabled(R.Apply(n, s), t)
    ensures R.Possible(n, [s, t]) && R.Run(n, [s, t]) == R.Apply(R.Apply(n, s), t)
  {
    assert [s, t][1..] == [t];
    RunOne(R.Apply(n, s), t);
  }

  lemma RunStart(n: R.Net, c: R.ClientId)
    requires c !in n.clients
    ensures var steps := [R.Start(c), R.Begin(c)];
            && R.Possible(n, steps)
            && R.Run(n, steps) == n.(clients := n.clients[c := R.Client(n.configured, false, R.Loading)])
  {
    RunTwo(n, R.Start(c), R.Begin(c));
  }

  /** A step that ends a client's wait in vain, and the end of its request. */
  lemma RunDrop(n: R.Net, s: R.Step, c: R.ClientId)
    requires R.Enabled(n, s) && c in n.clients
    requires s == R.Fail(c) || s == R.GiveUp(c) || s == R.LoseReply(c)
          || (s == R.Serve(c) && n.clients[c].refreshToken != n.current)
    ensures R.Possible(n, [s, R.Discard(c)])
    ensures R.Run(n, [s, R.Discard(c)]) ==
      n.(clients := n.clients - {c},
         abandoned := if s.GiveUp? then n.abandoned + {n.clients[c].refreshToken} else n.abandoned)
  {
    RunTwo(n, s, R.Discard(c));
    assert R.Apply(n, s).clients - {c} == n.clients - {c};
  }

  /** What a step of the user's call does to the protocol state. */
  function NetAfter(l: Lineage, n: R.Net, w: World, c: R.ClientId): R.Net {
    var client := ClientOf(l, w.gateway, c);
    R.Net(w.current, n.configured, StoredRow(l, w.gateway),
          if client.Some? then n.clients[c := client.value] else n.clients - {c}, w.abandoned)
  }

  /** A step of one of the user's calls, from a world that n mirrors. */
  ghost predicate Steppable(l: Lineage, w: World, n: R.Net, id: RequestId, input: Input) {
    && Mirrors(l, w, n) && OneConfigured(l, w.gateway) && Lawful(l, w, Happens(Advance(id, input)))
    && id.user == l.user && id in w.gateway.requests && Rotating(w.gateway.requests[id].stage)
  }

  /** The steps are possible and lead to where the happening leads. */
  ghost predicate Follows(l: Lineage, w: World, n: R.Net, id: RequestId, input: Input)
    requires id in w.gateway.requests && Rotating(w.gateway.requests[id].stage)
  {
    var steps := TokenSteps(id.number, w.gateway.requests[id].stage, input);
    && R.Possible(n, steps)
    && R.Run(n, steps) == NetAfter(l, n, Happened(l, w, Happens(Advance(id, input))), id.number)
  }

  lemma OwnClient(l: Lineage, w: World, n: R.Net, id: RequestId, input: Input)
    requires Steppable(l, w, n, id, input)
    ensures RequestKeeps(l, w.gateway.requests[id])
    ensures id.number in n.clients && ClientIn(l, w.gateway.requests[id].stage) == Some(n.clients[id.number])
    ensures var g := TokenStep(w.gateway, id, w.gateway.requests[id].stage, input);
            Happened(l, w, Happens(Advance(id, input))).gateway == g
            && ClientOf(l, g, id.number) == ClientIn(l, g.requests[id].stage)
  {
    assert RequestId(l.user, id.number) == id;
    assert SameClient(l, w.gateway, n, id.number);
  }

  lemma LoadFollows(l: Lineage, w: World, n: R.Net, id: RequestId, input: Input)
    requires Steppable(l, w, n, id, input) && w.gateway.requests[id].stage.NeedToken?
    ensures Follows(l, w, n, id, input)
  {
    OwnClient(l, w, n, id, input);
    RunOne(n, if input.storeOk then R.LoadOk(id.number) else R.LoadFailed(id.number));
  }

  lemma SendFollows(l: Lineage, w: World, n: R.Net, id: RequestId, input: Input)
    requires Steppable(l, w, n, id, input) && w.gateway.requests[id].stage.NeedExchange?
    ensures Follows(l, w, n, id, input)
  {
    OwnClient(l, w, n, id, input);
    RunOne(n, R.Send(id.number));
  }

  lemma ExchangeFails(l: Lineage, w: World, n: R.Net, id: RequestId, input: Input)
    requires Steppable(l, w, n, id, input) && w.gateway.requests[id].stage.Exchanging? && !input.exchange.Issued?
    ensures Follows(l, w, n, id, input)
  {
    OwnClient(l, w, n, id, input);
    RunDrop(n, TokenSteps(id.number, w.gateway.requests[id].stage, input)[0], id.number);
  }

  lemma ExchangeSucceeds(l: Lineage, w: World, n: R.Net, id: RequestId, input: Input)
    requires Steppable(l, w, n, id, input) && w.gateway.requests[id].stage.Exchanging? && input.exchange.Issued?
    ensures Follows(l, w, n, id, input)
  {
    OwnClient(l, w, n, id, input);
    RunOne(n, R.Serve(id.number));
  }

  lemma ReceiveFollows(l: Lineage, w: World, n: R.Net, id: RequestId, input: Input)
    requires Steppable(l, w, n, id, input) && w.gateway.requests[id].stage.NeedTokenReply?
    ensures Follows(l, w, n, id, input)
  {
    OwnClient(l, w, n, id, input);
    if input.answered {
      RunOne(n, R.Receive(id.number));
    } else {
      RunDrop(n, R.LoseReply(id.number), id.number);
    }
  }

  lemma SaveFollows(l: Lineage, w: World, n: R.Net, id: RequestId, input: Input)
    requires Steppable(l, w, n, id, input) && w.gateway.requests[id].stage.NeedTokenSave?
    ensures Follows(l, w, n, id, input)
  {
    OwnClient(l, w, n, id, input);
    RunOne(n, if input.storeOk then R.SaveOk(id.number) else R.SaveFailed(id.number));
  }

  lemma AnswerFollows(l: Lineage, w: World, n: R.Net, id: RequestId, input: Input)
    requires Steppable(l, w, n, id, input) && w.gateway.requests[id].stage.NeedAnswer?
    ensures Follows(l, w, n, id, input)
  {
    OwnClient(l, w, n, id, input);
    RunOne(n, TokenSteps(id.number, w.gateway.requests[id].stage, input)[0]);
  }

  lemma TokenStepFollows(l: Lineage, w: World, n: R.Net, id: RequestId, input: Input)
    requires Steppable(l, w, n, id, input)
    ensures Follows(l, w, n, id, input)
  {
    match w.gateway.requests[id].stage {
      case NeedToken(_) => LoadFollows(l, w, n, id, input);
      case NeedExchange(_, _) => SendFollows(l, w, n, id, input);
      case Exchanging(_, _) =>
        if input.exchange.Issued? {
          ExchangeSucceeds(l, w, n, id, input);
        } else {
          ExchangeFails(l, w, n, id, input);
        }
      case NeedTokenReply(_, _, _) => ReceiveFollows(l, w, n, id, input);
      case NeedTokenSave(_, _, _) => SaveFollows(l, w, n, id, input);
      case NeedAnswer(_, _, _) => AnswerFollows(l, w, n, id, input);
    }
  }

  // ---- The user's credentials keep the configured token ----

  lemma BeginKeepsConfigured(l: Lineage, g: Gateway, id: RequestId, input: Input)
    requires OneConfigured(l, g) && id in g.requests && id.user == l.user
    ensures OneConfigured(l, Begin(g, id, input))
  {
    var m := Begin(g, id, input);
    assert RequestKeeps(l, g.requests[id]);
    assert RequestKeeps(l, m.requests[id]);
    match g.requests[id].body {
      case SaveCredential(name, _) => assert ParseBroker(name).Some? ==> Name(ParseBroker(name).value) == name;
      case _ =>
    }
  }

  lemma ImportKeepsConfigured(l: Lineage, g: Gateway, id: RequestId, env: EnvConfig, already: seq<Broker>,
                              todo: seq<Broker>, imported: seq<Broker>, input: Input)
    requires OneConfigured(l, g) && id in g.requests && id.user == l.user && KeepsEnv(l, env)
    ensures OneConfigured(l, ImportNext(g, id, env, already, todo, imported, input))
  {
    assert RequestKeeps(l, g.requests[id]);
    assert RequestKeeps(l, ImportNext(g, id, env, already, todo, imported, input).requests[id]);
  }

  /** A step that leaves the credentials alone. */
  lemma MoveKeepsConfigured(l: Lineage, g: Gateway, m: Gateway, id: RequestId)
    requires OneConfigured(l, g) && Frame(g, m, id) && m.credentials == g.credentials
    requires id.user == l.user ==> RequestKeeps(l, m.requests[id])
    ensures OneConfigured(l, m)
  {
  }

  lemma TokenStepKeepsRequest(l: Lineage, w: World, id: RequestId, input: Input)
    requires id in w.gateway.requests && id.user == l.user && Rotating(w.gateway.requests[id].stage)
    requires RequestKeeps(l, w.gateway.requests[id]) && Lawful(l, w, Happens(Advance(id, input)))
    ensures RequestKeeps(l, TokenStep(w.gateway, id, w.gateway.requests[id].stage, input).requests[id])
  {
  }

  lemma OrderStepKeepsRequest(l: Lineage, g: Gateway, id: RequestId, stage: Stage, input: Input)
    requires id in g.requests && RequestKeeps(l, g.requests[id]) && Placing(stage)
    ensures RequestKeeps(l, OrderStep(g, id, stage, input).requests[id])
  {
  }

  lemma OthersKeepConfigured(l: Lineage, g: Gateway, id: RequestId, input: Input)
    requires OneConfigured(l, g) && id in g.requests && id.user != l.user
    ensures OneConfigured(l, Step(g, id, input))
  {
    Isolation.StepTouchesOwnRows(g, id, input, (l.user, Questrade));
  }

  lemma StepKeepsConfigured(l: Lineage, w: World, id: RequestId, input: Input)
    requires OneConfigured(l, w.gateway) && id in w.gateway.requests && Lawful(l, w, Happens(Advance(id, input)))
    ensures OneConfigured(l, Step(w.gateway, id, input))
  {
    var g, stage := w.gateway, w.gateway.requests[id].stage;
    if id.user != l.user {
      OthersKeepConfigured(l, g, id, input);
    } else {
      assert RequestKeeps(l, g.requests[id]);
      if Placing(stage) {
        OrderStepKeepsRequest(l, g, id, stage, input);
        MoveKeepsConfigured(l, g, OrderStep(g, id, stage, input), id);
      } else if Rotating(stage) {
        TokenStepKeepsRequest(l, w, id, input);
        MoveKeepsConfigured(l, g, TokenStep(g, id, stage, input), id);
      } else if stage.Received? {
        BeginKeepsConfigured(l, g, id, input);
      } else if stage.Importing? {
        ImportKeepsConfigured(l, g, id, stage.env, stage.already, stage.todo, stage.imported, input);
      }
    }
  }

  // ---- The refinement ----

  /** The user's call is the only one whose client changes. */
  lemma TokenStepMirrors(l: Lineage, w: World, n: R.Net, id: RequestId, input: Input)
    requires Steppable(l, w, n, id, input)
    ensures var m := Happened(l, w, Happens(Advance(id, input))); Mirrors(l, m, NetAfter(l, n, m, id.number))
  {
    var m := Happened(l, w, Happens(Advance(id, input)));
    assert m.gateway == TokenStep(w.gateway, id, w.gateway.requests[id].stage, input);
    forall c: R.ClientId
      ensures SameClient(l, m.gateway, NetAfter(l, n, m, id.number), c)
    {
      assert SameClient(l, w.gateway, n, c);
      assert RequestId(l.user, c) == id <==> c == id.number;
    }
  }

  /** A step that leaves the user's token row and clients as they are. */
  lemma UnseenMirrors(l: Lineage, w: World, m: World, n: R.Net)
    requires Mirrors(l, w, n) && m.current == w.current && m.abandoned == w.abandoned
    requires StoredRow(l, m.gateway) == StoredRow(l, w.gateway)
    requires forall c: R.ClientId :: ClientOf(l, m.gateway, c) == ClientOf(l, w.gateway, c)
    ensures Mirrors(l, m, n)
  {
    forall c: R.ClientId
      ensures SameClient(l, m.gateway, n, c)
    {
      assert SameClient(l, w.gateway, n, c);
    }
  }

  lemma OtherUserUnseen(l: Lineage, g: Gateway, id: RequestId, input: Input)
    requires id in g.requests && id.user != l.user
    ensures StoredRow(l, Step(g, id, input)) == StoredRow(l, g)
    ensures forall c: R.ClientId :: ClientOf(l, Step(g, id, input), c) == ClientOf(l, g, c)
  {
    Isolation.StepTouchesOwnRows(g, id, input, (l.user, Questrade));
  }

  /** Nothing but a connected user's call ever gets hold of a client. */
  lemma OtherRequestUnseen(l: Lineage, g: Gateway, id: RequestId, input: Input)
    requires id in g.requests && id.user == l.user
    requires !Rotating(g.requests[id].stage) && !StartsClient(l, g, id, input)
    ensures Step(g, id, input).tokens == g.tokens
    ensures !Rotating(Step(g, id, input).requests[id].stage)
  {
    var stage := g.requests[id].stage;
    if !Placing(stage) && stage.Received? {
      NoClientBegun(l, g, id, input);
    }
  }

  lemma NoClientBegun(l: Lineage, g: Gateway, id: RequestId, input: Input)
    requires id in g.requests && id.user == l.user && g.requests[id].stage.Received? && !StartsClient(l, g, id, input)
    ensures !Rotating(Begin(g, id, input).requests[id].stage)
  {
  }

  lemma OwnRequestUnseen(l: Lineage, g: Gateway, m: Gateway, id: RequestId)
    requires Frame(g, m, id) && m.tokens == g.tokens && id.user == l.user
    requires !Rotating(g.requests[id].stage) && !Rotating(m.requests[id].stage)
    ensures StoredRow(l, m) == StoredRow(l, g)
    ensures forall c: R.ClientId :: ClientOf(l, m, c) == ClientOf(l, g, c)
  {
  }

  lemma StartFollows(l: Lineage, w: World, n: R.Net, id: RequestId, input: Input)
    requires Mirrors(l, w, n) && OneConfigured(l, w.gateway)
    requires id.user == l.user && id in w.gateway.requests && StartsClient(l, w.gateway, id, input)
    ensures var steps := [R.Start(id.number), R.Begin(id.number)];
            && R.Possible(n, steps)
            && Mirrors(l, Happened(l, w, Happens(Advance(id, input))), R.Run(n, steps))
  {
    var g, c := w.gateway, id.number;
    var m := Happened(l, w, Happens(Advance(id, input)));
    assert m.gateway == BeginQuestrade(g, id, input);
    assert RequestId(l.user, c) == id && SameClient(l, g, n, c);
    RunStart(n, c);
    var e := n.(clients := n.clients[c := R.Client(n.configured, false, R.Loading)]);
    forall d: R.ClientId
      ensures SameClient(l, m.gateway, e, d)
    {
      assert SameClient(l, g, n, d);
      assert RequestId(l.user, d) == id <==> d == c;
    }
  }

  /** A request that dies takes its client with it. */
  lemma DieMirrors(l: Lineage, w: World, n: R.Net, id: RequestId)
    requires Mirrors(l, w, n) && HasClient(l, w.gateway, id)
    ensures R.Possible(n, [R.Discard(id.number)])
    ensures Mirrors(l, Happened(l, w, Happens(Die(id))), R.Run(n, [R.Discard(id.number)]))
  {
    assert SameClient(l, w.gateway, n, id.number) && RequestId(l.user, id.number) == id;
    var m, e := Happened(l, w, Happens(Die(id))), R.Apply(n, R.Discard(id.number));
    RunOne(n, R.Discard(id.number));
    forall c: R.ClientId
      ensures SameClient(l, m.gateway, e, c)
    {
      assert SameClient(l, w.gateway, n, c);
      assert RequestId(l.user, c) == id <==> c == id.number;
    }
  }

  lemma DieUnseen(l: Lineage, w: World, n: R.Net, id: RequestId)
    requires Mirrors(l, w, n) && !HasClient(l, w.gateway, id)
    ensures Mirrors(l, Happened(l, w, Happens(Die(id))), n)
  {
    UnseenMirrors(l, w, Happened(l, w, Happens(Die(id))), n);
  }

  lemma KillKeepsConfigured(l: Lineage, g: Gateway, id: RequestId)
    requires OneConfigured(l, g)
    ensures OneConfigured(l, Apply(g, Die(id)))
  {
    if id in g.requests {
      assert id.user == l.user ==> RequestKeeps(l, g.requests[id]);
      MoveKeepsConfigured(l, g, Kill(g, id), id);
    }
  }

  lemma ArriveUnseen(l: Lineage, w: World, n: R.Net, id: RequestId, body: Body)
    requires Mirrors(l, w, n) && OneConfigured(l, w.gateway) && Lawful(l, w, Happens(Arrive(id, body)))
    ensures var m := Happened(l, w, Happens(Arrive(id, body))); Mirrors(l, m, n) && OneConfigured(l, m.gateway)
  {
    UnseenMirrors(l, w, Happened(l, w, Happens(Arrive(id, body))), n);
  }

  lemma AdvanceMirrors(l: Lineage, w: World, n: R.Net, id: RequestId, input: Input)
    requires Mirrors(l, w, n) && OneConfigured(l, w.gateway) && Lawful(l, w, Happens(Advance(id, input)))
    requires id in w.gateway.requests
    ensures var h := Happens(Advance(id, input));
            R.Possible(n, StepsOf(l, w, h)) && Mirrors(l, Happened(l, w, h), R.Run(n, StepsOf(l, w, h)))
  {
    var g, h := w.gateway, Happens(Advance(id, input));
    if id.user != l.user {
      OtherUserUnseen(l, g, id, input);
      UnseenMirrors(l, w, Happened(l, w, h), n);
    } else if Rotating(g.requests[id].stage) {
      TokenStepFollows(l, w, n, id, input);
      TokenStepMirrors(l, w, n, id, input);
    } else if StartsClient(l, g, id, input) {
      StartFollows(l, w, n, id, input);
    } else {
      OtherRequestUnseen(l, g, id, input);
      OwnRequestUnseen(l, g, Step(g, id, input), id);
      UnseenMirrors(l, w, Happened(l, w, h), n);
    }
  }

  lemma HappeningMirrors(l: Lineage, w: World, n: R.Net, h: Happening)
    requires Mirrors(l, w, n) && OneConfigured(l, w.gateway) && Lawful(l, w, h)
    ensures R.Possible(n, StepsOf(l, w, h)) && Mirrors(l, Happened(l, w, h), R.Run(n, StepsOf(l, w, h)))
    ensures OneConfigured(l, Happened(l, w, h).gateway)
  {
    match h {
      case ServesAbandoned(token) =>
        RunOne(n, R.ServeAbandoned(token));
        forall c: R.ClientId
          ensures SameClient(l, w.gateway, R.Run(n, StepsOf(l, w, h)), c)
        {
          assert SameClient(l, w.gateway, n, c);
        }
      case Happens(Arrive(id, body)) => ArriveUnseen(l, w, n, id, body);
      case Happens(Advance(id, input)) =>
        if id in w.gateway.requests {
          AdvanceMirrors(l, w, n, id, input);
          StepKeepsConfigured(l, w, id, input);
        }
      case Happens(Die(id)) =>
        KillKeepsConfigured(l, w.gateway, id);
        if HasClient(l, w.gateway, id) {
          DieMirrors(l, w, n, id);
        } else {
          DieUnseen(l, w, n, id);
        }
    }
  }

  /**
   * Every run of the gateway, with the requests of all users interleaved in
   * any way, is for each user with one lineage a run of the rotation protocol.
   */
  lemma {:induction false} EveryRunRotates(l: Lineage, w: World, n: R.Net, hs: seq<Happening>)
    requires Mirrors(l, w, n) && OneConfigured(l, w.gateway) && AllLawful(l, w, hs)
    ensures R.Possible(n, Trace(l, w, hs)) && Mirrors(l, After(l, w, hs), R.Run(n, Trace(l, w, hs)))
    ensures OneConfigured(l, After(l, w, hs).gateway)
    decreases |hs|
  {
    if hs != [] {
      HappeningMirrors(l, w, n, hs[0]);
      EveryRunRotates(l, Happened(l, w, hs[0]), R.Run(n, StepsOf(l, w, hs[0])), hs[1..]);
      R.RunAppend(n, StepsOf(l, w, hs[0]), Trace(l, Happened(l, w, hs[0]), hs[1..]));
    }
  }
}
