/**
 * What the rotation protocol's guarantees come to for one user of the gateway:
 * which tokens can be unsaved, stored, used up and lost while the requests of
 * all users interleave.
 */
module TokenSafety {
  import opened Wrappers
  import opened Models
  import opened Credentials
  import opened Gateway
  import opened TokenLineage
  import R = TokenRotation

  /** No request has arrived, and neither the row nor the credentials are ahead of the endpoint. */
  ghost predicate FreshStart(l: Lineage, w: World) {
    && w.gateway.requests == map[] && w.abandoned == {} && OneConfigured(l, w.gateway)
    && R.Initial(NetOf(l, w))
  }

  function NetOf(l: Lineage, w: World): R.Net {
    R.Net(w.current, l.configured, StoredRow(l, w.gateway), map[], {})
  }

  /** The protocol state after a run of the gateway. */
  lemma Protocol(l: Lineage, start: World, hs: seq<Happening>) returns (n: R.Net)
    requires FreshStart(l, start) && AllLawful(l, start, hs)
    ensures R.Possible(NetOf(l, start), Trace(l, start, hs)) && n == R.Run(NetOf(l, start), Trace(l, start, hs))
    ensures Mirrors(l, After(l, start, hs), n) && OneConfigured(l, After(l, start, hs).gateway) && R.Invariant(n)
  {
    forall c: R.ClientId
      ensures SameClient(l, start.gateway, NetOf(l, start), c)
    {
    }
    EveryRunRotates(l, start, NetOf(l, start), hs);
    n := R.Run(NetOf(l, start), Trace(l, start, hs));
    R.RunKeepsInvariant(NetOf(l, start), Trace(l, start, hs));
  }

  /** Between the issue of a token and its save. */
  predicate HoldsUnsaved(g: Gateway, id: RequestId) {
    id in g.requests && (g.requests[id].stage.NeedTokenReply? || g.requests[id].stage.NeedTokenSave?)
  }

  function UnsavedToken(g: Gateway, id: RequestId): string
    requires HoldsUnsaved(g, id)
  {
    var stage := g.requests[id].stage;
    if stage.NeedTokenReply? then stage.grant.refreshToken else stage.issued
  }

  lemma UnsavedMirrored(l: Lineage, w: World, n: R.Net, id: RequestId)
    requires Mirrors(l, w, n) && id.user == l.user && HoldsUnsaved(w.gateway, id)
    ensures R.HoldsUnsaved(n, id.number)
    ensures R.Newest(n.clients[id.number]) == l.number(UnsavedToken(w.gateway, id))
  {
    assert SameClient(l, w.gateway, n, id.number) && RequestId(l.user, id.number) == id;
  }

  /**
   * Whatever all users do at the same time, at most one of the user's requests
   * holds a token that is issued and not yet saved; it is the one token the
   * endpoint accepts, and neither the row nor the credentials have it.
   */
  lemma OneUnsavedPerUser(l: Lineage, start: World, hs: seq<Happening>, id: RequestId)
    requires FreshStart(l, start) && AllLawful(l, start, hs)
    requires id.user == l.user && HoldsUnsaved(Run(start.gateway, EventsIn(hs)), id)
    ensures var w := After(l, start, hs);
            && w.gateway == Run(start.gateway, EventsIn(hs))
            && l.number(UnsavedToken(w.gateway, id)) == w.current
            && StoredRow(l, w.gateway) != Some(w.current) && l.configured != w.current
            && forall other: RequestId :: other.user == l.user && HoldsUnsaved(w.gateway, other) ==> other == id
  {
    GatewayRuns(l, start, hs);
    var w := After(l, start, hs);
    var n := Protocol(l, start, hs);
    UnsavedMirrored(l, w, n, id);
    R.AtMostOneUnsaved(NetOf(l, start), Trace(l, start, hs), id.number);
    forall other: RequestId | other.user == l.user && HoldsUnsaved(w.gateway, other)
      ensures other == id
    {
      UnsavedMirrored(l, w, n, other);
    }
  }

  /** Between any two points of any run the generation in the user's row does not fall. */
  lemma StoredGenerationNeverFalls(l: Lineage, start: World, before: seq<Happening>, after: seq<Happening>)
    requires FreshStart(l, start) && AllLawful(l, start, before) && AllLawful(l, After(l, start, before), after)
    ensures var first, last := StoredRow(l, Run(start.gateway, EventsIn(before))),
                               StoredRow(l, Run(Run(start.gateway, EventsIn(before)), EventsIn(after)));
            first.Some? ==> last.Some? && first.value <= last.value
  {
    GatewayRuns(l, start, before);
    var mid := After(l, start, before);
    GatewayRuns(l, mid, after);
    var n := Protocol(l, start, before);
    EveryRunRotates(l, mid, n, after);
    R.SavesInIssueOrder(n, Trace(l, mid, after));
  }

  // ---- Losing the token ----

  /** The request's client has the token that the endpoint accepts. */
  predicate KnowsCurrent(l: Lineage, w: World, id: RequestId) {
    && id.user == l.user && id in w.gateway.requests
    && ClientIn(l, w.gateway.requests[id].stage).Some?
    && R.Newest(ClientIn(l, w.gateway.requests[id].stage).value) == w.current
  }

  predicate Kept(l: Lineage, w: World) {
    StoredRow(l, w.gateway) == Some(w.current) || l.configured == w.current
  }

  /** Somebody or something still has it. */
  ghost predicate Findable(l: Lineage, w: World) {
    Kept(l, w) || exists id :: KnowsCurrent(l, w, id)
  }

  /** An exchange nobody waits for is served, or a request ends or dies while its client has the only copy. */
  predicate LosesToken(l: Lineage, w: World, h: Happening) {
    match h
    case ServesAbandoned(token) => token == w.current
    case Happens(Arrive(_, _)) => false
    case Happens(Advance(id, input)) =>
      KnowsCurrent(l, w, id) && !Kept(l, w) && Step(w.gateway, id, input).requests[id].stage.Done?
    case Happens(Die(id)) => KnowsCurrent(l, w, id) && !Kept(l, w)
  }

  predicate SomeLost(l: Lineage, w: World, hs: seq<Happening>)
    decreases |hs|
  {
    hs != [] && (LosesToken(l, w, hs[0]) || SomeLost(l, Happened(l, w, hs[0]), hs[1..]))
  }

  lemma FindableIsKnown(l: Lineage, w: World, n: R.Net)
    requires Mirrors(l, w, n)
    ensures Findable(l, w) <==> R.Known(n)
    ensures Kept(l, w) <==> R.Shared(n)
  {
    if id :| KnowsCurrent(l, w, id) {
      assert SameClient(l, w.gateway, n, id.number) && RequestId(l.user, id.number) == id;
      assert R.Knows(n, id.number);
    }
    if c :| R.Knows(n, c) {
      assert SameClient(l, w.gateway, n, c);
      assert KnowsCurrent(l, w, RequestId(l.user, c));
    }
  }

  lemma LossOne(n: R.Net, s: R.Step)
    requires R.Enabled(n, s) && R.Possible(n, [s])
    ensures R.SomeLoss(n, [s]) <==> R.Loses(n, s)
  {
    assert [s][1..] == [];
  }

  lemma LossTwo(n: R.Net, s: R.Step, t: R.Step)
    requires R.Enabled(n, s) && R.Enabled(R.Apply(n, s), t) && R.Possible(n, [s, t])
    ensures R.SomeLoss(n, [s, t]) <==> R.Loses(n, s) || R.Loses(R.Apply(n, s), t)
  {
    assert [s, t][1..] == [t];
    RunOne(R.Apply(n, s), t);
    LossOne(R.Apply(n, s), t);
  }

  lemma EndInVainLoses(l: Lineage, w: World, n: R.Net, id: RequestId, input: Input)
    requires Steppable(l, w, n, id, input) && R.Invariant(n)
    requires var steps := TokenSteps(id.number, w.gateway.requests[id].stage, input); |steps| == 2 && R.Possible(n, steps)
    ensures R.SomeLoss(n, TokenSteps(id.number, w.gateway.requests[id].stage, input))
       <==> KnowsCurrent(l, w, id) && !Kept(l, w)
  {
    OwnClient(l, w, n, id, input);
    FindableIsKnown(l, w, n);
    var steps := TokenSteps(id.number, w.gateway.requests[id].stage, input);
    assert steps == [steps[0], R.Discard(id.number)];
    assert w.gateway.requests[id].stage.NeedTokenReply? ==> R.HoldsUnsaved(n, id.number);
    LossTwo(n, steps[0], R.Discard(id.number));
  }

  lemma TokenStepLoses(l: Lineage, w: World, n: R.Net, id: RequestId, input: Input)
    requires Steppable(l, w, n, id, input) && R.Invariant(n)
    requires R.Possible(n, TokenSteps(id.number, w.gateway.requests[id].stage, input))
    ensures R.SomeLoss(n, TokenSteps(id.number, w.gateway.requests[id].stage, input))
       <==> LosesToken(l, w, Happens(Advance(id, input)))
  {
    var steps := TokenSteps(id.number, w.gateway.requests[id].stage, input);
    OwnClient(l, w, n, id, input);
    if |steps| == 2 {
      EndInVainLoses(l, w, n, id, input);
    } else {
      FindableIsKnown(l, w, n);
      assert steps == [steps[0]];
      LossOne(n, steps[0]);
    }
  }

  lemma DeathLoses(l: Lineage, w: World, n: R.Net, id: RequestId)
    requires Mirrors(l, w, n) && HasClient(l, w.gateway, id) && R.Possible(n, [R.Discard(id.number)])
    ensures R.SomeLoss(n, [R.Discard(id.number)]) <==> KnowsCurrent(l, w, id) && !Kept(l, w)
  {
    assert SameClient(l, w.gateway, n, id.number) && RequestId(l.user, id.number) == id;
    FindableIsKnown(l, w, n);
    LossOne(n, R.Discard(id.number));
  }

  lemma HappeningLoses(l: Lineage, w: World, n: R.Net, h: Happening)
    requires Mirrors(l, w, n) && OneConfigured(l, w.gateway) && Lawful(l, w, h) && R.Invariant(n)
    requires R.Possible(n, StepsOf(l, w, h))
    ensures R.SomeLoss(n, StepsOf(l, w, h)) <==> LosesToken(l, w, h)
  {
    match h {
      case ServesAbandoned(token) => LossOne(n, R.ServeAbandoned(token));
      case Happens(Arrive(_, _)) =>
      case Happens(Advance(id, input)) =>
        if id.user == l.user && id in w.gateway.requests {
          if Rotating(w.gateway.requests[id].stage) {
            TokenStepLoses(l, w, n, id, input);
          } else if StartsClient(l, w.gateway, id, input) {
            LossTwo(n, R.Start(id.number), R.Begin(id.number));
          }
        }
      case Happens(Die(id)) =>
        if HasClient(l, w.gateway, id) {
          DeathLoses(l, w, n, id);
        }
    }
  }

  lemma {:induction false} RunLoses(l: Lineage, w: World, n: R.Net, hs: seq<Happening>)
    requires Mirrors(l, w, n) && OneConfigured(l, w.gateway) && AllLawful(l, w, hs) && R.Invariant(n)
    requires R.Possible(n, Trace(l, w, hs))
    ensures R.SomeLoss(n, Trace(l, w, hs)) <==> SomeLost(l, w, hs)
    decreases |hs|
  {
    if hs != [] {
      var m, first := Happened(l, w, hs[0]), StepsOf(l, w, hs[0]);
      HappeningMirrors(l, w, n, hs[0]);
      HappeningLoses(l, w, n, hs[0]);
      R.RunKeepsInvariant(n, first);
      EveryRunRotates(l, m, R.Run(n, first), hs[1..]);
      RunLoses(l, m, R.Run(n, first), hs[1..]);
      R.LossAppend(n, first, Trace(l, m, hs[1..]));
    }
  }

  /**
   * A user ends up locked out, with the accepted token in nobody's hands, if
   * and only if it was so at the start, or the endpoint served a request that
   * nobody waited for, or a request ended while its client had the only copy:
   * its token reply was lost, or its save failed and it did not save a later
   * token, or the gateway was stopped between the exchange and the save. A
   * client lives no longer than its request.
   */
  lemma LockedOutIff(l: Lineage, start: World, hs: seq<Happening>)
    requires FreshStart(l, start) && AllLawful(l, start, hs)
    ensures !Findable(l, After(l, start, hs)) <==> !Findable(l, start) || SomeLost(l, start, hs)
  {
    var n0 := NetOf(l, start);
    var n := Protocol(l, start, hs);
    assert forall c: R.ClientId :: SameClient(l, start.gateway, n0, c);
    FindableIsKnown(l, start, n0);
    FindableIsKnown(l, After(l, start, hs), n);
    RunLoses(l, start, n0, hs);
    R.StrandedIff(n0, Trace(l, start, hs));
  }

  lemma DeathStrands(l: Lineage, w: World, n: R.Net, id: RequestId)
    requires Mirrors(l, w, n) && OneConfigured(l, w.gateway) && R.Invariant(n)
    requires KnowsCurrent(l, w, id) && !Kept(l, w)
    ensures !Findable(l, Happened(l, w, Happens(Die(id))))
  {
    var h := Happens(Die(id));
    HappeningMirrors(l, w, n, h);
    HappeningLoses(l, w, n, h);
    R.StrandedIff(n, StepsOf(l, w, h));
    FindableIsKnown(l, Happened(l, w, h), R.Run(n, StepsOf(l, w, h)));
  }

  lemma LostStaysLost(l: Lineage, w: World, n: R.Net, hs: seq<Happening>)
    requires Mirrors(l, w, n) && OneConfigured(l, w.gateway) && R.Invariant(n) && AllLawful(l, w, hs)
    requires !Findable(l, w)
    ensures !Findable(l, After(l, w, hs))
  {
    EveryRunRotates(l, w, n, hs);
    R.StrandedIff(n, Trace(l, w, hs));
    FindableIsKnown(l, w, n);
    FindableIsKnown(l, After(l, w, hs), R.Run(n, Trace(l, w, hs)));
  }

  lemma MirrorAfter(l: Lineage, w: World, n: R.Net, h: Happening) returns (m: R.Net)
    requires Mirrors(l, w, n) && OneConfigured(l, w.gateway) && Lawful(l, w, h) && R.Invariant(n)
    ensures Mirrors(l, Happened(l, w, h), m) && OneConfigured(l, Happened(l, w, h).gateway) && R.Invariant(m)
  {
    HappeningMirrors(l, w, n, h);
    R.RunKeepsInvariant(n, StepsOf(l, w, h));
    m := R.Run(n, StepsOf(l, w, h));
  }

  lemma UnsavedKnows(l: Lineage, start: World, hs: seq<Happening>, id: RequestId)
    requires FreshStart(l, start) && AllLawful(l, start, hs) && id.user == l.user
    requires HoldsUnsaved(After(l, start, hs).gateway, id)
    ensures KnowsCurrent(l, After(l, start, hs), id) && !Kept(l, After(l, start, hs))
  {
    GatewayRuns(l, start, hs);
    OneUnsavedPerUser(l, start, hs, id);
  }

  /**
   * A restart at the wrong moment is fatal: if a request dies between the
   * exchange and the save, the user is locked out, whatever happens later.
   */
  lemma RestartLocksOut(l: Lineage, start: World, hs: seq<Happening>, id: RequestId, later: seq<Happening>)
    requires FreshStart(l, start) && AllLawful(l, start, hs) && id.user == l.user
    requires HoldsUnsaved(After(l, start, hs).gateway, id)
    requires AllLawful(l, Happened(l, After(l, start, hs), Happens(Die(id))), later)
    ensures !Findable(l, After(l, Happened(l, After(l, start, hs), Happens(Die(id))), later))
  {
    var w := After(l, start, hs);
    UnsavedKnows(l, start, hs, id);
    var n := Protocol(l, start, hs);
    DeathStrands(l, w, n, id);
    var m := MirrorAfter(l, w, n, Happens(Die(id)));
    LostStaysLost(l, Happened(l, w, Happens(Die(id))), m, later);
  }

  // ---- Runs that lose nothing ----

  /** Where the next client looks for the token. */
  predicate Home(l: Lineage, w: World) {
    StoredRow(l, w.gateway) == Some(w.current) || (StoredRow(l, w.gateway).None? && l.configured == w.current)
  }

  /** None of the user's requests is on its way to a token. */
  ghost predicate NobodyInside(l: Lineage, g: Gateway) {
    forall id: RequestId :: id.user == l.user && id in g.requests && Rotating(g.requests[id].stage)
      ==> g.requests[id].stage.NeedAnswer?
  }

  predicate FailsSave(l: Lineage, g: Gateway, h: Happening) {
    h.Happens? && h.event.Advance? && h.event.id.user == l.user && h.event.id in g.requests
    && g.requests[h.event.id].stage.NeedTokenSave? && !h.event.input.storeOk
  }

  predicate NoSaveFails(l: Lineage, w: World, hs: seq<Happening>)
    decreases |hs|
  {
    hs == [] || (!FailsSave(l, w.gateway, hs[0]) && NoSaveFails(l, Happened(l, w, hs[0]), hs[1..]))
  }

  lemma StepsSave(l: Lineage, w: World, h: Happening)
    requires !FailsSave(l, w.gateway, h)
    ensures R.AllSavesSucceed(StepsOf(l, w, h))
  {
  }

  lemma {:induction false} TraceSaves(l: Lineage, w: World, hs: seq<Happening>)
    requires NoSaveFails(l, w, hs)
    ensures R.AllSavesSucceed(Trace(l, w, hs))
    decreases |hs|
  {
    if hs != [] {
      StepsSave(l, w, hs[0]);
      TraceSaves(l, Happened(l, w, hs[0]), hs[1..]);
    }
  }

  lemma LossesMirrored(l: Lineage, start: World, hs: seq<Happening>)
    requires FreshStart(l, start) && AllLawful(l, start, hs) && R.Possible(NetOf(l, start), Trace(l, start, hs))
    ensures R.SomeLoss(NetOf(l, start), Trace(l, start, hs)) <==> SomeLost(l, start, hs)
  {
    assert forall c: R.ClientId :: SameClient(l, start.gateway, NetOf(l, start), c);
    RunLoses(l, start, NetOf(l, start), hs);
  }

  /**
   * Without such a loss the accepted token is always where the next client
   * looks for it, or exactly one of the user's requests has it.
   */
  lemma HomeOrInOneHand(l: Lineage, start: World, hs: seq<Happening>)
    requires FreshStart(l, start) && Home(l, start) && AllLawful(l, start, hs) && !SomeLost(l, start, hs)
    ensures var w := After(l, start, hs);
            Home(l, w) || exists id :: KnowsCurrent(l, w, id) && forall other :: KnowsCurrent(l, w, other) ==> other == id
  {
    var w := After(l, start, hs);
    var n := Protocol(l, start, hs);
    LossesMirrored(l, start, hs);
    R.NothingLostNothingMissing(NetOf(l, start), Trace(l, start, hs));
    if !Home(l, w) {
      var c :| R.Knows(n, c) && forall d :: R.Knows(n, d) ==> d == c;
      KnowersMirrored(l, w, n, RequestId(l.user, c));
      forall other | KnowsCurrent(l, w, other)
        ensures other == RequestId(l.user, c)
      {
        KnowersMirrored(l, w, n, other);
      }
    }
  }

  lemma KnowersMirrored(l: Lineage, w: World, n: R.Net, id: RequestId)
    requires Mirrors(l, w, n) && id.user == l.user
    ensures KnowsCurrent(l, w, id) <==> R.Knows(n, id.number)
  {
    assert SameClient(l, w.gateway, n, id.number) && RequestId(l.user, id.number) == id;
  }

  /**
   * And if no token save fails, it is there whenever none of the user's
   * requests is inside ensureAuth, so the user's next call goes through.
   */
  lemma HomeWhenQuiet(l: Lineage, start: World, hs: seq<Happening>)
    requires FreshStart(l, start) && Home(l, start) && AllLawful(l, start, hs) && !SomeLost(l, start, hs)
    requires NoSaveFails(l, start, hs) && NobodyInside(l, After(l, start, hs).gateway)
    ensures Home(l, After(l, start, hs))
  {
    var w := After(l, start, hs);
    var n := Protocol(l, start, hs);
    LossesMirrored(l, start, hs);
    TraceSaves(l, start, hs);
    forall c | c in n.clients
      ensures n.clients[c].phase.Idle?
    {
      assert SameClient(l, w.gateway, n, c);
    }
    R.RowAgreesWhenQuiet(NetOf(l, start), Trace(l, start, hs));
  }

  // ---- A call that nothing goes wrong with ----

  /** An input with which everything works, the endpoint granting `next` with a lifetime over the margin. */
  predicate Works(input: Input, next: string) {
    && input.storeOk && input.answered
    && input.exchange.Issued? && input.exchange.grant.refreshToken == next != ""
    && input.exchange.grant.accessToken != "" && input.exchange.grant.expiresIn > 30
  }

  function StepsToGo(stage: Stage): nat {
    match stage
    case Received => 8
    case NeedToken(_) => 7
    case NeedExchange(_, more) => 4 + AnswersToGo(more)
    case Exchanging(_, more) => 3 + AnswersToGo(more)
    case NeedTokenReply(_, _, more) => 2 + AnswersToGo(more)
    case NeedTokenSave(_, _, more) => 1 + AnswersToGo(more)
    case NeedAnswer(_, _, more) => AnswersToGo(more)
    case _ => 0
  }

  function AnswersToGo(more: bool): nat {
    if more then 2 else 1
  }

  predicate HasOldToken(l: Lineage, w: World, token: string, next: string) {
    l.number(token) == w.current && l.number(next) == w.current + 1
  }

  /** A call on its way to a stored successor. */
  predicate OnItsWay(l: Lineage, w: World, id: RequestId, input: Input, next: string) {
    id.user == l.user && id in w.gateway.requests && w.gateway.requests[id].body == QuestradeCall
    && match w.gateway.requests[id].stage
       case Received =>
         && Home(l, w) && l.number(next) == w.current + 1 && (l.user, Questrade) in w.gateway.credentials
         && l.number(TokenIn(w.gateway.credentials[(l.user, Questrade)])) == l.configured
       case NeedToken(token) => Home(l, w) && l.number(next) == w.current + 1 && l.number(token) == l.configured
       case NeedExchange(token, _) => HasOldToken(l, w, token, next)
       case Exchanging(token, _) => HasOldToken(l, w, token, next)
       case NeedTokenReply(_, grant, _) => Issued(grant) == input.exchange && l.number(next) == w.current
       case NeedTokenSave(issued, access, _) =>
         issued == next && access.Good(input.now) && l.number(next) == w.current
       case NeedAnswer(_, access, _) =>
         StoredRow(l, w.gateway) == Some(w.current) && access.Good(input.now) && l.number(next) == w.current
       case Done(reply) =>
         reply == Forwarded(true) && StoredRow(l, w.gateway) == Some(w.current) && l.number(next) == w.current
       case _ => false
  }

  /** One step nearer to the end. */
  predicate GetsOn(l: Lineage, w: World, m: World, id: RequestId, input: Input, next: string)
    requires id in w.gateway.requests
  {
    OnItsWay(l, m, id, input, next)
    && StepsToGo(m.gateway.requests[id].stage) + 1 == StepsToGo(w.gateway.requests[id].stage)
  }

  lemma CallBegins(l: Lineage, w: World, id: RequestId, input: Input, next: string)
    requires Works(input, next) && OnItsWay(l, w, id, input, next) && w.gateway.requests[id].stage.Received?
    ensures GetsOn(l, w, w.(gateway := BeginQuestrade(w.gateway, id, input)), id, input, next)
  {
  }

  lemma CallGetsOn(l: Lineage, w: World, m: World, id: RequestId, input: Input, next: string)
    requires Works(input, next) && OnItsWay(l, w, id, input, next) && Rotating(w.gateway.requests[id].stage)
    requires m.gateway == TokenStep(w.gateway, id, w.gateway.requests[id].stage, input)
    requires m.current == w.current + if w.gateway.requests[id].stage.Exchanging? then 1 else 0
    ensures GetsOn(l, w, m, id, input, next)
  {
  }

  lemma StaysOnItsWay(l: Lineage, w: World, id: RequestId, input: Input, next: string)
    requires Works(input, next) && OnItsWay(l, w, id, input, next) && !w.gateway.requests[id].stage.Done?
    ensures Lawful(l, w, Happens(Advance(id, input)))
    ensures GetsOn(l, w, Happened(l, w, Happens(Advance(id, input))), id, input, next)
  {
    if w.gateway.requests[id].stage.Received? {
      CallBegins(l, w, id, input, next);
    } else {
      CallGetsOn(l, w, Happened(l, w, Happens(Advance(id, input))), id, input, next);
    }
  }

  function Advances(id: RequestId, input: Input, steps: nat): seq<Happening> {
    if steps == 0 then [] else [Happens(Advance(id, input))] + Advances(id, input, steps - 1)
  }

  lemma {:induction false} ReachesItsEnd(l: Lineage, w: World, id: RequestId, input: Input, next: string)
    requires Works(input, next) && OnItsWay(l, w, id, input, next)
    ensures var hs := Advances(id, input, StepsToGo(w.gateway.requests[id].stage));
            && AllLawful(l, w, hs) && OnItsWay(l, After(l, w, hs), id, input, next)
            && After(l, w, hs).gateway.requests[id].stage.Done?
    decreases StepsToGo(w.gateway.requests[id].stage)
  {
    if !w.gateway.requests[id].stage.Done? {
      StaysOnItsWay(l, w, id, input, next);
      ReachesItsEnd(l, Happened(l, w, Happens(Advance(id, input))), id, input, next);
    }
  }

  /**
   * While the accepted token is where the next client looks for it, a connected
   * user's next call, if nothing goes wrong with it, is answered and leaves the
   * successor in the row.
   */
  lemma LoneCallRotates(l: Lineage, w: World, id: RequestId, input: Input, next: string)
    requires id.user == l.user && id !in w.gateway.requests && (l.user, Questrade) in w.gateway.credentials
    requires OneConfigured(l, w.gateway) && Home(l, w)
    requires Works(input, next) && l.number(next) == w.current + 1
    ensures var hs := [Happens(Arrive(id, QuestradeCall))] + Advances(id, input, 8);
            && AllLawful(l, w, hs)
            && StageOf(After(l, w, hs).gateway, id) == Some(Done(Forwarded(true)))
            && After(l, w, hs).current == w.current + 1
            && StoredRow(l, After(l, w, hs).gateway) == Some(w.current + 1)
  {
    var arrive := Happens(Arrive(id, QuestradeCall));
    var end := After(l, Happened(l, w, arrive), Advances(id, input, 8));
    assert ([arrive] + Advances(id, input, 8))[1..] == Advances(id, input, 8);
    ReachesItsEnd(l, Happened(l, w, arrive), id, input, next);
    assert OnItsWay(l, end, id, input, next) && end.gateway.requests[id].stage.Done?;
  }
}
