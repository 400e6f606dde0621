/**
 * Reconnecting to Questrade with a fresh token while a stale row is left behind
 * (internal/brokerage/questrade/client.go lines 89-112).
 */
module Reconnecting {
  import opened Wrappers
  import opened Models
  import opened Credentials
  import opened Gateway
  import opened TokenLineage

  predicate HasNothingBetter(l: Lineage, w: World, stage: Stage) {
    match stage
    case NeedExchange(token, _) => l.number(token) != w.current
    case Exchanging(token, _) => l.number(token) != w.current
    case NeedTokenReply(_, _, _) => false
    case NeedTokenSave(_, _, _) => false
    case NeedAnswer(_, _, _) => false
    case Done(reply) => reply != Forwarded(true)
    case _ => true
  }

  /** The row holds a token that is no longer accepted, and no request of the user has a better one or was ever answered. */
  ghost predicate Shadowed(l: Lineage, w: World) {
    && StoredRow(l, w.gateway).Some? && StoredRow(l, w.gateway) != Some(w.current)
    && w.current !in w.abandoned
    && forall id :: id in w.gateway.requests && id.user == l.user ==> HasNothingBetter(l, w, w.gateway.requests[id].stage)
  }

  predicate FailsLoad(l: Lineage, g: Gateway, h: Happening) {
    h.Happens? && h.event.Advance? && h.event.id.user == l.user && h.event.id in g.requests
    && g.requests[h.event.id].stage.NeedToken? && !h.event.input.storeOk
  }

  predicate NoLoadFails(l: Lineage, w: World, hs: seq<Happening>)
    decreases |hs|
  {
    hs == [] || (!FailsLoad(l, w.gateway, hs[0]) && NoLoadFails(l, Happened(l, w, hs[0]), hs[1..]))
  }

  lemma OwnStepShadowed(l: Lineage, w: World, id: RequestId, input: Input)
    requires Shadowed(l, w) && HasClient(l, w.gateway, id)
    requires Lawful(l, w, Happens(Advance(id, input))) && !FailsLoad(l, w.gateway, Happens(Advance(id, input)))
    ensures var m := TokenStep(w.gateway, id, w.gateway.requests[id].stage, input);
            HasNothingBetter(l, w, m.requests[id].stage) && m.tokens == w.gateway.tokens
    ensures InExchange(l, w.gateway, id) ==> !input.exchange.Issued? && l.number(w.gateway.requests[id].stage.token) != w.current
  {
    assert HasNothingBetter(l, w, w.gateway.requests[id].stage);
  }

  lemma OtherStepShadowed(l: Lineage, w: World, id: RequestId, input: Input)
    requires Shadowed(l, w) && id in w.gateway.requests && id.user == l.user && !Rotating(w.gateway.requests[id].stage)
    ensures var m := Step(w.gateway, id, input);
            HasNothingBetter(l, w, m.requests[id].stage) && m.tokens == w.gateway.tokens
  {
    assert HasNothingBetter(l, w, w.gateway.requests[id].stage);
    if w.gateway.requests[id].stage.Received? {
      BeginShadowed(l, w, id, input);
    }
  }

  lemma BeginShadowed(l: Lineage, w: World, id: RequestId, input: Input)
    requires id in w.gateway.requests
    ensures HasNothingBetter(l, w, Begin(w.gateway, id, input).requests[id].stage)
  {
  }

  /** If the request that moves is still no better off, nobody is. */
  lemma ShadowedAfter(l: Lineage, w: World, m: World, id: RequestId)
    requires Shadowed(l, w) && Frame(w.gateway, m.gateway, id) && m.current == w.current && w.current !in m.abandoned
    requires StoredRow(l, m.gateway) == StoredRow(l, w.gateway)
    requires id.user == l.user ==> HasNothingBetter(l, m, m.gateway.requests[id].stage)
    ensures Shadowed(l, m)
  {
    forall other | other in m.gateway.requests && other.user == l.user
      ensures HasNothingBetter(l, m, m.gateway.requests[other].stage)
    {
      assert other != id ==> HasNothingBetter(l, w, w.gateway.requests[other].stage);
    }
  }

  lemma AdvanceShadowed(l: Lineage, w: World, id: RequestId, input: Input)
    requires Shadowed(l, w) && id in w.gateway.requests
    requires Lawful(l, w, Happens(Advance(id, input))) && !FailsLoad(l, w.gateway, Happens(Advance(id, input)))
    ensures var m := Happened(l, w, Happens(Advance(id, input)));
            Shadowed(l, m) && m.current == w.current && StoredRow(l, m.gateway) == StoredRow(l, w.gateway)
  {
    var m := Happened(l, w, Happens(Advance(id, input)));
    if id.user != l.user {
      OtherUserUnseen(l, w.gateway, id, input);
    } else if Rotating(w.gateway.requests[id].stage) {
      OwnStepShadowed(l, w, id, input);
    } else {
      OtherStepShadowed(l, w, id, input);
    }
    ShadowedAfter(l, w, m, id);
  }

  lemma DieShadowed(l: Lineage, w: World, id: RequestId)
    requires Shadowed(l, w) && id in w.gateway.requests
    ensures var m := Happened(l, w, Happens(Die(id)));
            Shadowed(l, m) && m.current == w.current && StoredRow(l, m.gateway) == StoredRow(l, w.gateway)
  {
    assert id.user == l.user ==> HasNothingBetter(l, w, w.gateway.requests[id].stage);
    ShadowedAfter(l, w, Happened(l, w, Happens(Die(id))), id);
  }

  lemma HappeningShadowed(l: Lineage, w: World, h: Happening)
    requires Shadowed(l, w) && Lawful(l, w, h) && !FailsLoad(l, w.gateway, h)
    ensures var m := Happened(l, w, h);
            Shadowed(l, m) && m.current == w.current && StoredRow(l, m.gateway) == StoredRow(l, w.gateway)
  {
    match h {
      case ServesAbandoned(_) =>
      case Happens(Arrive(_, _)) =>
      case Happens(Advance(id, input)) =>
        if id in w.gateway.requests {
          AdvanceShadowed(l, w, id, input);
        }
      case Happens(Die(id)) =>
        if id in w.gateway.requests {
          DieShadowed(l, w, id);
        }
    }
  }

  lemma {:induction false} RunShadowed(l: Lineage, w: World, hs: seq<Happening>)
    requires Shadowed(l, w) && AllLawful(l, w, hs) && NoLoadFails(l, w, hs)
    ensures var e := After(l, w, hs);
            Shadowed(l, e) && e.current == w.current && StoredRow(l, e.gateway) == StoredRow(l, w.gateway)
    decreases |hs|
  {
    if hs != [] {
      HappeningShadowed(l, w, hs[0]);
      RunShadowed(l, Happened(l, w, hs[0]), hs[1..]);
    }
  }

  /** The user saves these secrets for Questrade. */
  function Reconnects(save: RequestId, secrets: Secrets, input: Input): seq<Happening> {
    [Happens(Arrive(save, SaveCredential("questrade", Some(secrets)))), Happens(Advance(save, input))]
  }

  lemma ReconnectStores(l: Lineage, w: World, save: RequestId, secrets: Secrets, input: Input)
    requires save !in w.gateway.requests && save.user == l.user && input.storeOk
    ensures var m := After(l, w, Reconnects(save, secrets, input));
            && m == World(m.gateway, w.current, w.abandoned) && m.gateway.tokens == w.gateway.tokens
            && m.gateway.requests ==
               w.gateway.requests[save := Request(SaveCredential("questrade", Some(secrets)), Done(NoContent))]
            && m.gateway.credentials == w.gateway.credentials[(save.user, Questrade) := secrets]
  {
    var arrive, advance := Reconnects(save, secrets, input)[0], Reconnects(save, secrets, input)[1];
    var m := Happened(l, w, arrive);
    AfterTwo(l, w, arrive, advance);
    SaveStores(m.gateway, save, secrets, input);
  }

  lemma AfterTwo(l: Lineage, w: World, first: Happening, second: Happening)
    ensures After(l, w, [first, second]) == Happened(l, Happened(l, w, first), second)
  {
    assert [first, second][1..] == [second] && [second][1..] == [];
    assert After(l, w, [first, second]) == After(l, Happened(l, w, first), [second]);
  }

  lemma SaveStores(g: Gateway, save: RequestId, secrets: Secrets, input: Input)
    requires save in g.requests && g.requests[save] == Request(SaveCredential("questrade", Some(secrets)), Received)
    requires input.storeOk
    ensures Step(g, save, input) ==
      Finish(g, save, NoContent).(credentials := g.credentials[(save.user, Questrade) := secrets])
  {
    assert Name(Questrade) == "questrade";
    assert ParseBroker("questrade") == Some(Questrade);
  }

  /**
   * What the gateway repository's README promises a user who is locked out,
   * and does not hold: with a stale row left behind, the user saves a fresh
   * token that the endpoint accepts, and then no Questrade request of that user
   * is ever answered, in any run in which the row can be read. The row stays as
   * it is and the fresh token is never presented.
   */
  lemma ReconnectIsShadowed(l: Lineage, w: World, save: RequestId, secrets: Secrets, input: Input, hs: seq<Happening>)
    requires w.gateway.requests == map[] && w.current !in w.abandoned
    requires StoredRow(l, w.gateway).Some? && StoredRow(l, w.gateway) != Some(w.current)
    requires save.user == l.user && input.storeOk && l.number(TokenIn(secrets)) == l.configured == w.current
    requires var m := After(l, w, Reconnects(save, secrets, input)); AllLawful(l, m, hs) && NoLoadFails(l, m, hs)
    ensures var m := After(l, w, Reconnects(save, secrets, input));
            var e := After(l, m, hs);
            && m.gateway.credentials == w.gateway.credentials[(save.user, Questrade) := secrets]
            && e.current == w.current && StoredRow(l, e.gateway) == StoredRow(l, w.gateway)
            && forall id: RequestId :: id.user == l.user ==> StageOf(e.gateway, id) != Some(Done(Forwarded(true)))
  {
    var m := After(l, w, Reconnects(save, secrets, input));
    ReconnectStores(l, w, save, secrets, input);
    assert Shadowed(l, m);
    RunShadowed(l, m, hs);
    NobodyAnswered(l, After(l, m, hs));
  }

  lemma NobodyAnswered(l: Lineage, w: World)
    requires Shadowed(l, w)
    ensures forall id: RequestId :: id.user == l.user ==> StageOf(w.gateway, id) != Some(Done(Forwarded(true)))
  {
    forall id: RequestId | id.user == l.user && id in w.gateway.requests
      ensures w.gateway.requests[id].stage != Done(Forwarded(true))
    {
      assert HasNothingBetter(l, w, w.gateway.requests[id].stage);
    }
  }
}
