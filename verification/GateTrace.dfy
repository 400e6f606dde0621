/**
 * What lies behind a call to Alpaca: the three steps of the gate that the same
 * request took before it (internal/httpapi/order_handlers.go lines 75-98).
 */
module GateTrace {
  import opened Wrappers
  import opened Calendar
  import opened Models
  import opened PdtGate
  import opened Gateway

  /** Event i of the run was a step that the request took from this stage. */
  ghost predicate Took(start: Gateway, events: seq<Event>, id: RequestId, stage: Stage, i: int) {
    && 0 <= i < |events| && events[i].Advance? && events[i].id == id
    && StageOf(Run(start, events[..i]), id) == Some(stage)
  }

  /** At event i the broker answered with this account. */
  ghost predicate FetchedAccount(start: Gateway, events: seq<Event>, id: RequestId, order: CheckedOrder,
                                 account: Account, i: int) {
    Took(start, events, id, NeedAccount(order), i) && events[i].input.account == Success(account)
  }

  /** At event j the day trades were fetched. */
  ghost predicate FetchedTrades(start: Gateway, events: seq<Event>, id: RequestId, order: CheckedOrder,
                                account: Account, fetchedAt: Instant, j: int) {
    Took(start, events, id, NeedTrades(order, account), j)
    && events[j].input.storeOk && events[j].input.now == fetchedAt
  }

  /** At event k the gate looked at this evidence. */
  ghost predicate Checked(start: Gateway, events: seq<Event>, id: RequestId, order: CheckedOrder, ev: Evidence, k: int) {
    Took(start, events, id, NeedGate(order, ev.account, ev.trades, ev.fetchedAt), k)
    && events[k].input.now == ev.checkedAt
  }

  /** At event m the broker was called, with this outcome. */
  ghost predicate Called(start: Gateway, events: seq<Event>, call: Call, m: int) {
    Took(start, events, call.id, NeedPlace(call.order, call.evidence), m) && events[m].input.placed == call.outcome
  }

  ghost predicate AccountBehind(start: Gateway, events: seq<Event>, id: RequestId, order: CheckedOrder, account: Account) {
    exists i :: FetchedAccount(start, events, id, order, account, i)
  }

  ghost predicate TradesBehind(start: Gateway, events: seq<Event>, id: RequestId, order: CheckedOrder,
                               account: Account, fetchedAt: Instant) {
    exists i, j :: i < j && FetchedAccount(start, events, id, order, account, i)
                   && FetchedTrades(start, events, id, order, account, fetchedAt, j)
  }

  ghost predicate CheckBehind(start: Gateway, events: seq<Event>, id: RequestId, order: CheckedOrder, ev: Evidence) {
    exists i, j, k :: i < j < k && FetchedAccount(start, events, id, order, ev.account, i)
                      && FetchedTrades(start, events, id, order, ev.account, ev.fetchedAt, j)
                      && Checked(start, events, id, order, ev, k)
  }

  /** The request fetched the account, then the day trades, then checked, then called. */
  ghost predicate GateBehind(start: Gateway, events: seq<Event>, call: Call, ev: Evidence) {
    exists i, j, k, m :: i < j < k < m && FetchedAccount(start, events, call.id, call.order, ev.account, i)
                         && FetchedTrades(start, events, call.id, call.order, ev.account, ev.fetchedAt, j)
                         && Checked(start, events, call.id, call.order, ev, k)
                         && Called(start, events, call, m)
  }

  ghost predicate StageTraced(start: Gateway, events: seq<Event>, id: RequestId, stage: Stage) {
    match stage
    case NeedTrades(order, account) => AccountBehind(start, events, id, order, account)
    case NeedGate(order, account, trades, at) => TradesBehind(start, events, id, order, account, at)
    case NeedPlace(order, evidence) => evidence.Some? ==> CheckBehind(start, events, id, order, evidence.value)
    case _ => true
  }

  ghost predicate CallTraced(start: Gateway, events: seq<Event>, call: Call) {
    call.evidence.Some? ==> GateBehind(start, events, call, call.evidence.value)
  }

  ghost predicate Traced(start: Gateway, events: seq<Event>) {
    var g := Run(start, events);
    && (forall id :: id in g.requests ==> StageTraced(start, events, id, g.requests[id].stage))
    && (forall i :: 0 <= i < |g.calls| ==> CallTraced(start, events, g.calls[i]))
  }

  // ---- A longer run keeps what lies behind ----

  lemma TookStays(start: Gateway, events: seq<Event>, e: Event, id: RequestId, stage: Stage, i: int)
    requires Took(start, events, id, stage, i)
    ensures Took(start, events + [e], id, stage, i) && (events + [e])[i] == events[i]
  {
    assert (events + [e])[..i] == events[..i];
  }

  lemma AccountStays(start: Gateway, events: seq<Event>, e: Event, id: RequestId, order: CheckedOrder, account: Account)
    requires AccountBehind(start, events, id, order, account)
    ensures AccountBehind(start, events + [e], id, order, account)
  {
    var i :| FetchedAccount(start, events, id, order, account, i);
    TookStays(start, events, e, id, NeedAccount(order), i);
    assert FetchedAccount(start, events + [e], id, order, account, i);
  }

  lemma TradesStay(start: Gateway, events: seq<Event>, e: Event, id: RequestId, order: CheckedOrder,
                   account: Account, at: Instant)
    requires TradesBehind(start, events, id, order, account, at)
    ensures TradesBehind(start, events + [e], id, order, account, at)
  {
    var i, j :| i < j && FetchedAccount(start, events, id, order, account, i)
                && FetchedTrades(start, events, id, order, account, at, j);
    TookStays(start, events, e, id, NeedAccount(order), i);
    TookStays(start, events, e, id, NeedTrades(order, account), j);
    assert FetchedAccount(start, events + [e], id, order, account, i);
    assert FetchedTrades(start, events + [e], id, order, account, at, j);
  }

  lemma CheckStays(start: Gateway, events: seq<Event>, e: Event, id: RequestId, order: CheckedOrder, ev: Evidence)
    requires CheckBehind(start, events, id, order, ev)
    ensures CheckBehind(start, events + [e], id, order, ev)
  {
    var i, j, k :| i < j < k && FetchedAccount(start, events, id, order, ev.account, i)
                   && FetchedTrades(start, events, id, order, ev.account, ev.fetchedAt, j)
                   && Checked(start, events, id, order, ev, k);
    TookStays(start, events, e, id, NeedAccount(order), i);
    TookStays(start, events, e, id, NeedTrades(order, ev.account), j);
    TookStays(start, events, e, id, NeedGate(order, ev.account, ev.trades, ev.fetchedAt), k);
    assert FetchedAccount(start, events + [e], id, order, ev.account, i);
    assert FetchedTrades(start, events + [e], id, order, ev.account, ev.fetchedAt, j);
    assert Checked(start, events + [e], id, order, ev, k);
  }

  lemma CallStays(start: Gateway, events: seq<Event>, e: Event, call: Call)
    requires CallTraced(start, events, call)
    ensures CallTraced(start, events + [e], call)
  {
    if call.evidence.Some? {
      var id, order, ev := call.id, call.order, call.evidence.value;
      var i, j, k, m :| i < j < k < m && FetchedAccount(start, events, id, order, ev.account, i)
                        && FetchedTrades(start, events, id, order, ev.account, ev.fetchedAt, j)
                        && Checked(start, events, id, order, ev, k) && Called(start, events, call, m);
      TookStays(start, events, e, id, NeedAccount(order), i);
      TookStays(start, events, e, id, NeedTrades(order, ev.account), j);
      TookStays(start, events, e, id, NeedGate(order, ev.account, ev.trades, ev.fetchedAt), k);
      TookStays(start, events, e, id, NeedPlace(order, call.evidence), m);
      assert FetchedAccount(start, events + [e], id, order, ev.account, i);
      assert FetchedTrades(start, events + [e], id, order, ev.account, ev.fetchedAt, j);
      assert Checked(start, events + [e], id, order, ev, k);
      assert Called(start, events + [e], call, m);
    }
  }

  lemma StageStays(start: Gateway, events: seq<Event>, e: Event, id: RequestId, stage: Stage)
    requires StageTraced(start, events, id, stage)
    ensures StageTraced(start, events + [e], id, stage)
  {
    match stage {
      case NeedTrades(order, account) => AccountStays(start, events, e, id, order, account);
      case NeedGate(order, account, trades, at) => TradesStay(start, events, e, id, order, account, at);
      case NeedPlace(order, evidence) =>
        if evidence.Some? {
          CheckStays(start, events, e, id, order, evidence.value);
        }
      case _ =>
    }
  }

  // ---- A step leaves its own trace ----

  lemma TakesNow(start: Gateway, events: seq<Event>, id: RequestId, input: Input, g: Gateway)
    requires g == Run(start, events) && id in g.requests
    ensures Took(start, events + [Advance(id, input)], id, g.requests[id].stage, |events|)
  {
    assert (events + [Advance(id, input)])[..|events|] == events;
  }

  lemma AccountTraced(start: Gateway, events: seq<Event>, id: RequestId, order: CheckedOrder, input: Input, g: Gateway)
    requires g == Run(start, events) && id in g.requests && g.requests[id].stage == NeedAccount(order)
    ensures StageTraced(start, events + [Advance(id, input)], id, FetchAccount(g, id, order, input).requests[id].stage)
  {
    TakesNow(start, events, id, input, g);
    if input.account.Success? {
      assert FetchedAccount(start, events + [Advance(id, input)], id, order, input.account.value, |events|);
    }
  }

  lemma TradesTraced(start: Gateway, events: seq<Event>, id: RequestId, order: CheckedOrder, account: Account,
                     input: Input, g: Gateway)
    requires g == Run(start, events) && id in g.requests && g.requests[id].stage == NeedTrades(order, account)
    requires AccountBehind(start, events, id, order, account)
    ensures StageTraced(start, events + [Advance(id, input)], id,
                        FetchTrades(g, id, order, account, input).requests[id].stage)
  {
    var longer := events + [Advance(id, input)];
    TakesNow(start, events, id, input, g);
    if input.storeOk {
      var i :| FetchedAccount(start, events, id, order, account, i);
      TookStays(start, events, Advance(id, input), id, NeedAccount(order), i);
      assert FetchedAccount(start, longer, id, order, account, i);
      assert FetchedTrades(start, longer, id, order, account, input.now, |events|);
    }
  }

  lemma CheckTraced(start: Gateway, events: seq<Event>, id: RequestId, order: CheckedOrder, ev: Evidence,
                    input: Input, g: Gateway)
    requires g == Run(start, events) && id in g.requests
    requires g.requests[id].stage == NeedGate(order, ev.account, ev.trades, ev.fetchedAt) && input.now == ev.checkedAt
    requires TradesBehind(start, events, id, order, ev.account, ev.fetchedAt)
    ensures CheckBehind(start, events + [Advance(id, input)], id, order, ev)
  {
    var e := Advance(id, input);
    TakesNow(start, events, id, input, g);
    var i, j :| i < j && FetchedAccount(start, events, id, order, ev.account, i)
                && FetchedTrades(start, events, id, order, ev.account, ev.fetchedAt, j);
    TookStays(start, events, e, id, NeedAccount(order), i);
    TookStays(start, events, e, id, NeedTrades(order, ev.account), j);
    assert FetchedAccount(start, events + [e], id, order, ev.account, i);
    assert FetchedTrades(start, events + [e], id, order, ev.account, ev.fetchedAt, j);
    assert Checked(start, events + [e], id, order, ev, |events|);
  }

  lemma PlaceTraced(start: Gateway, events: seq<Event>, id: RequestId, order: CheckedOrder, evidence: Option<Evidence>,
                    input: Input, g: Gateway)
    requires g == Run(start, events) && id in g.requests && g.requests[id].stage == NeedPlace(order, evidence)
    requires evidence.Some? ==> CheckBehind(start, events, id, order, evidence.value)
    ensures CallTraced(start, events + [Advance(id, input)], Call(id, order, evidence, input.placed))
  {
    var e, call := Advance(id, input), Call(id, order, evidence, input.placed);
    TakesNow(start, events, id, input, g);
    if evidence.Some? {
      var ev := evidence.value;
      var i, j, k :| i < j < k && FetchedAccount(start, events, id, order, ev.account, i)
                     && FetchedTrades(start, events, id, order, ev.account, ev.fetchedAt, j)
                     && Checked(start, events, id, order, ev, k);
      TookStays(start, events, e, id, NeedAccount(order), i);
      TookStays(start, events, e, id, NeedTrades(order, ev.account), j);
      TookStays(start, events, e, id, NeedGate(order, ev.account, ev.trades, ev.fetchedAt), k);
      assert FetchedAccount(start, events + [e], id, order, ev.account, i);
      assert FetchedTrades(start, events + [e], id, order, ev.account, ev.fetchedAt, j);
      assert Checked(start, events + [e], id, order, ev, k);
      assert Called(start, events + [e], call, |events|);
    }
  }

  lemma OrderStepTraced(start: Gateway, events: seq<Event>, id: RequestId, stage: Stage, input: Input, g: Gateway)
    requires g == Run(start, events) && id in g.requests && g.requests[id].stage == stage && Placing(stage)
    requires StageTraced(start, events, id, stage)
    ensures StageTraced(start, events + [Advance(id, input)], id, OrderStep(g, id, stage, input).requests[id].stage)
  {
    match stage {
      case NeedAccount(order) => AccountTraced(start, events, id, order, input, g);
      case NeedTrades(order, account) => TradesTraced(start, events, id, order, account, input, g);
      case NeedGate(order, account, trades, at) =>
        CheckTraced(start, events, id, order, Evidence(account, trades, at, input.now), input, g);
      case NeedPlace(_, _) =>
      case NeedPersist(_) =>
      case NeedReply(_) =>
    }
  }

  /** An order that skips the gate has no evidence. */
  lemma BeginTraced(start: Gateway, events: seq<Event>, id: RequestId, input: Input, g: Gateway)
    requires id in g.requests
    ensures StageTraced(start, events, id, Begin(g, id, input).requests[id].stage)
  {
  }

  /** The stage that a step leads to has what it needs behind it. */
  lemma OwnStageTraced(start: Gateway, events: seq<Event>, id: RequestId, input: Input, g: Gateway)
    requires g == Run(start, events) && id in g.requests && StageTraced(start, events, id, g.requests[id].stage)
    ensures StageTraced(start, events + [Advance(id, input)], id, Step(g, id, input).requests[id].stage)
  {
    var stage := g.requests[id].stage;
    if Placing(stage) {
      OrderStepTraced(start, events, id, stage, input, g);
    } else if stage.Received? {
      BeginTraced(start, events + [Advance(id, input)], id, input, g);
    }
  }

  /** Only a call to the broker adds to the log of calls. */
  lemma StepCalls(g: Gateway, id: RequestId, input: Input)
    requires id in g.requests
    ensures var stage := g.requests[id].stage;
            Step(g, id, input).calls == if stage.NeedPlace? then g.calls + [Call(id, stage.order, stage.evidence, input.placed)]
                                        else g.calls
  {
    var stage := g.requests[id].stage;
    if !stage.NeedPlace? && !stage.NeedPersist? && !stage.NeedReply? {
      OthersKeepLogs(g, id, input);
    }
  }

  lemma AdvanceTraced(start: Gateway, events: seq<Event>, id: RequestId, input: Input, g: Gateway)
    requires g == Run(start, events) && id in g.requests && Traced(start, events)
    requires Run(start, events + [Advance(id, input)]) == Step(g, id, input)
    ensures Traced(start, events + [Advance(id, input)])
  {
    var e, m, stage := Advance(id, input), Step(g, id, input), g.requests[id].stage;
    assert StageTraced(start, events, id, stage);
    OwnStageTraced(start, events, id, input, g);
    forall other | other in m.requests && other != id
      ensures StageTraced(start, events + [e], other, m.requests[other].stage)
    {
      StageStays(start, events, e, other, g.requests[other].stage);
    }
    StepCalls(g, id, input);
    forall i | 0 <= i < |m.calls|
      ensures CallTraced(start, events + [e], m.calls[i])
    {
      if i < |g.calls| {
        CallStays(start, events, e, g.calls[i]);
      } else {
        PlaceTraced(start, events, id, stage.order, stage.evidence, input, g);
      }
    }
  }

  lemma OtherTraced(start: Gateway, events: seq<Event>, e: Event, g: Gateway)
    requires g == Run(start, events) && Traced(start, events) && (!e.Advance? || e.id !in g.requests)
    requires Run(start, events + [e]) == Apply(g, e)
    ensures Traced(start, events + [e])
  {
    var m := Apply(g, e);
    forall id | id in m.requests
      ensures StageTraced(start, events + [e], id, m.requests[id].stage)
    {
      if id in g.requests {
        StageStays(start, events, e, id, g.requests[id].stage);
      }
    }
    forall i | 0 <= i < |m.calls|
      ensures CallTraced(start, events + [e], m.calls[i])
    {
      CallStays(start, events, e, g.calls[i]);
    }
  }

  lemma {:induction false} RunTraced(start: Gateway, events: seq<Event>)
    requires Initial(start)
    ensures Traced(start, events)
  {
    if events != [] {
      var before, e := events[..|events| - 1], events[|events| - 1];
      var g := Run(start, before);
      assert events == before + [e];
      RunTraced(start, before);
      if e.Advance? && e.id in g.requests {
        AdvanceTraced(start, before, e.id, e.input, g);
      } else {
        OtherTraced(start, before, e, g);
      }
    }
  }

  /**
   * In every run, whatever the clocks read, each call to Alpaca was preceded
   * in its own request by a fetch of the account, a fetch of the user's recent
   * day trades and a check of the two that did not restrict, in that order.
   * Unless the clock stepped back in between, the check was right about the
   * whole table: the account had the threshold equity, or fewer than three of
   * the user's day trades at Alpaca lay in the window.
   */
  lemma GateBeforeAlpaca(start: Gateway, events: seq<Event>, call: Call)
    requires Initial(start)
    requires call in Run(start, events).calls && call.order.broker == Alpaca
    ensures call.evidence.Some? && GateBehind(start, events, call, call.evidence.value)
    ensures var ev := call.evidence.value;
            && ev.trades == RecentTrades(start.dayTrades, call.id.user, Alpaca, ev.fetchedAt)
            && !Decision(ev.account, call.id.user, Alpaca, ev.trades, ev.checkedAt).restricted
            && (!ev.fetchedAt.After(ev.checkedAt) ==>
                  ev.account.equity >= 25000.0
                  || DayTradeCount(start.dayTrades, call.id.user, Alpaca, ev.checkedAt) < 3)
  {
    RunKeepsSound(start, events);
    RunTraced(start, events);
    var g := Run(start, events);
    var i :| 0 <= i < |g.calls| && g.calls[i] == call;
    assert CallSound(g, g.calls[i]) && CallTraced(start, events, g.calls[i]);
    var ev := call.evidence.value;
    if !ev.fetchedAt.After(ev.checkedAt) {
      GateSeesTheWholeTable(ev.account, call.id.user, Alpaca, g.dayTrades, ev.trades, ev.fetchedAt, ev.checkedAt);
    }
  }
}
