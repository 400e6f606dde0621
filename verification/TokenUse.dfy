/**
 * How many refresh tokens one account or quote request uses up, by the clock
 * (internal/brokerage/questrade/client.go lines 99-222).
 */
module TokenUse {
  import opened Wrappers
  import opened Calendar
  import opened Models
  import opened Gateway
  import opened TokenLineage

  /** A step of this request moves on what the endpoint accepts. */
  predicate UsesToken(l: Lineage, w: World, h: Happening, id: RequestId) {
    h.Happens? && h.event.Advance? && h.event.id == id && NextCurrent(l, w, h) != w.current
  }

  /** The refresh tokens that the request uses up. */
  function TokensUsed(l: Lineage, w: World, hs: seq<Happening>, id: RequestId): nat
    decreases |hs|
  {
    if hs == [] then 0
    else Once(UsesToken(l, w, hs[0], id)) + TokensUsed(l, Happened(l, w, hs[0]), hs[1..], id)
  }

  /** A token reply, and when it was decoded. */
  datatype Receipt = Receipt(at: Instant, grant: Grant)

  function Receives(g: Gateway, h: Happening, id: RequestId): Option<Receipt> {
    if h.Happens? && h.event.Advance? && h.event.id == id && id in g.requests
       && g.requests[id].stage.NeedTokenReply? && g.requests[id].stage.more && h.event.input.answered
    then Some(Receipt(h.event.input.now, g.requests[id].stage.grant)) else None
  }

  /** The token reply that the request decodes for its first API request. */
  function FirstReceipt(l: Lineage, w: World, hs: seq<Happening>, id: RequestId): Option<Receipt>
    decreases |hs|
  {
    if hs == [] then None
    else if Receives(w.gateway, hs[0], id).Some? then Receives(w.gateway, hs[0], id)
    else FirstReceipt(l, Happened(l, w, hs[0]), hs[1..], id)
  }

  /** The second API request: when the call came to it, and whether it went back to the token endpoint for it. */
  datatype Second = Second(at: Instant, renews: bool)

  function ComesToSecond(g: Gateway, h: Happening, id: RequestId): Option<Second> {
    if h.Happens? && h.event.Advance? && h.event.id == id && id in g.requests
       && g.requests[id].stage.NeedAnswer? && g.requests[id].stage.more && h.event.input.answered
    then Some(Second(h.event.input.now, GoesToEndpoint(NextGateway(g, h), id))) else None
  }

  predicate GoesToEndpoint(g: Gateway, id: RequestId) {
    id in g.requests && g.requests[id].stage.NeedExchange?
  }

  /** How the request, its first API request answered, comes to the second. */
  function SecondCall(l: Lineage, w: World, hs: seq<Happening>, id: RequestId): Option<Second>
    decreases |hs|
  {
    if hs == [] then None
    else if ComesToSecond(w.gateway, hs[0], id).Some? then ComesToSecond(w.gateway, hs[0], id)
    else SecondCall(l, Happened(l, w, hs[0]), hs[1..], id)
  }

  /** Before the access token's lifetime less 30 seconds has passed since the reply. */
  predicate InTime(receipt: Receipt, at: Instant) {
    receipt.grant.accessToken != "" && at.Nanos() < receipt.at.Nanos() + (receipt.grant.expiresIn - 30) * SECOND
  }

  /** How a request's uses, receipt and second call hang together once the token of `receipt` has been used. */
  predicate AfterReceipt(receipt: Receipt, second: Option<Second>, used: nat) {
    && 1 <= used <= 2
    && (second.Some? ==> (second.value.renews <==> !InTime(receipt, second.value.at)))
    && (second.None? || !second.value.renews ==> used == 1)
  }

  /** The same from any stage on. */
  predicate FromStage(stage: Option<Stage>, receipt: Option<Receipt>, second: Option<Second>, used: nat) {
    match stage
    case Some(NeedTokenReply(_, grant, true)) =>
      if receipt.None? then second.None? && used == 0
      else receipt.value.grant == grant && AfterReceipt(receipt.value, second, used + 1)
    case Some(NeedTokenSave(_, access, true)) => WithAccess(access, receipt, second, used)
    case Some(NeedAnswer(_, access, true)) => WithAccess(access, receipt, second, used)
    case Some(NeedExchange(_, false)) => receipt.None? && second.None? && used <= 1
    case Some(Exchanging(_, false)) => receipt.None? && second.None? && used <= 1
    case Some(NeedExchange(_, true)) => FromStart(receipt, second, used)
    case Some(Exchanging(_, true)) => FromStart(receipt, second, used)
    case Some(NeedToken(_)) => FromStart(receipt, second, used)
    case Some(Received) => FromStart(receipt, second, used)
    case None => FromStart(receipt, second, used)
    case Some(_) => receipt.None? && second.None? && used == 0
  }

  predicate FromStart(receipt: Option<Receipt>, second: Option<Second>, used: nat) {
    if receipt.None? then second.None? && used <= 1 else AfterReceipt(receipt.value, second, used)
  }

  predicate WithAccess(access: Access, receipt: Option<Receipt>, second: Option<Second>, used: nat) {
    && receipt.None? && used <= 1
    && (second.Some? ==> (second.value.renews <==> !access.Good(second.value.at)))
    && (second.None? || !second.value.renews ==> used == 0)
  }

  lemma OwnStepFrom(l: Lineage, w: World, id: RequestId, input: Input, receipt: Option<Receipt>,
                    second: Option<Second>, used: nat)
    requires id.user == l.user && id in w.gateway.requests && Rotating(w.gateway.requests[id].stage)
    requires var stage := w.gateway.requests[id].stage;
             FromStage(StageOf(TokenStep(w.gateway, id, stage, input), id), receipt, second, used)
    ensures var h := Happens(Advance(id, input));
            var got, comes := Receives(w.gateway, h, id), ComesToSecond(w.gateway, h, id);
            FromStage(Some(w.gateway.requests[id].stage), if got.Some? then got else receipt,
                      if comes.Some? then comes else second, Once(UsesToken(l, w, h, id)) + used)
  {
  }

  /** A step without a client in hand: it may begin a Questrade call, and uses no token. */
  lemma OtherStepFrom(g: Gateway, id: RequestId, input: Input, receipt: Option<Receipt>, second: Option<Second>, used: nat)
    requires id in g.requests && !Rotating(g.requests[id].stage)
    requires FromStage(StageOf(Step(g, id, input), id), receipt, second, used)
    ensures FromStage(Some(g.requests[id].stage), receipt, second, used)
  {
    var stage := g.requests[id].stage;
    if Placing(stage) {
      assert Step(g, id, input) == OrderStep(g, id, stage, input);
    } else if stage.Received? {
      assert FromStart(receipt, second, used) by {
        assert Begun(g, Begin(g, id, input), id);
      }
    }
  }

  /** What is not a step of the request leaves its stage alone, unless it arrives or dies. */
  lemma Elsewhere(g: Gateway, h: Happening, id: RequestId)
    requires h.Happens? && h.event.Advance? ==> h.event.id != id || id !in g.requests
    ensures var before, after := StageOf(g, id), StageOf(NextGateway(g, h), id);
            || after == before
            || (before.None? && after == Some(Received))
            || (before.Some? && after == Some(Dead(before.value)))
  {
  }

  lemma ElsewhereFrom(g: Gateway, h: Happening, id: RequestId, receipt: Option<Receipt>, second: Option<Second>, used: nat)
    requires h.Happens? && h.event.Advance? ==> h.event.id != id || id !in g.requests
    requires FromStage(StageOf(NextGateway(g, h), id), receipt, second, used)
    ensures FromStage(StageOf(g, id), receipt, second, used)
  {
    Elsewhere(g, h, id);
  }

  lemma NoClientNoToken(l: Lineage, w: World, h: Happening, id: RequestId)
    requires h.Happens? && h.event.Advance? && h.event.id == id ==> !HasClient(l, w.gateway, id)
    requires id.user == l.user
    ensures Receives(w.gateway, h, id).None? && ComesToSecond(w.gateway, h, id).None? && !UsesToken(l, w, h, id)
  {
  }

  /** From before a happening on, given how things hang together after it. */
  predicate FromBefore(l: Lineage, w: World, h: Happening, id: RequestId, receipt: Option<Receipt>,
                       second: Option<Second>, used: nat) {
    var got, comes := Receives(w.gateway, h, id), ComesToSecond(w.gateway, h, id);
    FromStage(StageOf(w.gateway, id), if got.Some? then got else receipt,
              if comes.Some? then comes else second, Once(UsesToken(l, w, h, id)) + used)
  }

  lemma ClientStepFrom(l: Lineage, w: World, id: RequestId, input: Input, receipt: Option<Receipt>,
                       second: Option<Second>, used: nat)
    requires HasClient(l, w.gateway, id)
    requires FromStage(StageOf(NextGateway(w.gateway, Happens(Advance(id, input))), id), receipt, second, used)
    ensures FromBefore(l, w, Happens(Advance(id, input)), id, receipt, second, used)
  {
    assert NextGateway(w.gateway, Happens(Advance(id, input))) == TokenStep(w.gateway, id, w.gateway.requests[id].stage, input);
    OwnStepFrom(l, w, id, input, receipt, second, used);
  }

  lemma QuietHappeningFrom(l: Lineage, w: World, h: Happening, id: RequestId, receipt: Option<Receipt>,
                           second: Option<Second>, used: nat)
    requires h.Happens? && h.event.Advance? && h.event.id == id ==> !HasClient(l, w.gateway, id)
    requires id.user == l.user && FromStage(StageOf(w.gateway, id), receipt, second, used)
    ensures FromBefore(l, w, h, id, receipt, second, used)
  {
    NoClientNoToken(l, w, h, id);
  }

  lemma HappeningFrom(l: Lineage, w: World, h: Happening, id: RequestId, receipt: Option<Receipt>,
                      second: Option<Second>, used: nat)
    requires id.user == l.user && FromStage(StageOf(NextGateway(w.gateway, h), id), receipt, second, used)
    ensures FromBefore(l, w, h, id, receipt, second, used)
  {
    if h.Happens? && h.event.Advance? && h.event.id == id && id in w.gateway.requests {
      if HasClient(l, w.gateway, id) {
        ClientStepFrom(l, w, id, h.event.input, receipt, second, used);
      } else {
        OtherStepFrom(w.gateway, id, h.event.input, receipt, second, used);
        QuietHappeningFrom(l, w, h, id, receipt, second, used);
      }
    } else {
      ElsewhereFrom(w.gateway, h, id, receipt, second, used);
      QuietHappeningFrom(l, w, h, id, receipt, second, used);
    }
  }

  lemma {:induction false} RunFrom(l: Lineage, w: World, hs: seq<Happening>, id: RequestId)
    requires id.user == l.user
    ensures FromStage(StageOf(w.gateway, id), FirstReceipt(l, w, hs, id), SecondCall(l, w, hs, id), TokensUsed(l, w, hs, id))
    decreases |hs|
  {
    if hs != [] {
      var m := Happened(l, w, hs[0]);
      RunFrom(l, m, hs[1..], id);
      HappeningFrom(l, w, hs[0], id, FirstReceipt(l, m, hs[1..], id), SecondCall(l, m, hs[1..], id),
                    TokensUsed(l, m, hs[1..], id));
    }
  }

  /**
   * However requests and restarts interleave: once the exchange for the first
   * API request of a GetAccount or GetQuote is answered, the call uses exactly
   * one refresh token if it does not come to its second API request, or comes
   * to it within the access token's lifetime less 30 seconds of the reply. If
   * it comes later, and only then, it goes back to the token endpoint, and
   * uses at most one more. Before the answer it has used at most one.
   */
  lemma TokensPerRequest(l: Lineage, start: World, hs: seq<Happening>, id: RequestId)
    requires id.user == l.user && id !in start.gateway.requests
    ensures var receipt, second := FirstReceipt(l, start, hs, id), SecondCall(l, start, hs, id);
            var used := TokensUsed(l, start, hs, id);
            && (receipt.None? ==> second.None? && used <= 1)
            && (receipt.Some? ==> 1 <= used <= 2)
            && (receipt.Some? && second.None? ==> used == 1)
            && (receipt.Some? && second.Some? ==>
                  var inTime := receipt.value.grant.accessToken != ""
                                && second.value.at.Nanos()
                                   < receipt.value.at.Nanos() + (receipt.value.grant.expiresIn - 30) * 1_000_000_000;
                  (second.value.renews <==> !inTime) && (inTime ==> used == 1))
  {
    RunFrom(l, start, hs, id);
  }
}
