/**
 * One Questrade client (internal/brokerage/questrade/client.go) over the
 * stored token row (internal/db/oauth_tokens.go), and the timing of its
 * access-token cache. Replies, clock readings and failures are inputs.
 */
module Questrade {
  import opened Wrappers
  import opened Models
  import R = TokenRotation

  /** Times are in nanoseconds. */
  const SECOND := 1_000_000_000
  const HTTP_TIMEOUT := 10 * SECOND

  datatype TokenReply = TokenReply(accessToken: string, apiServer: string, expiresIn: int, issuedAt: int)

  /** What becomes of the exchange request. */
  datatype Delivery =
    | Failed     // it never reaches the token endpoint's state
    | Abandoned  // the client stops waiting; the server may yet act on it
    | ReplyLost  // the server acts; a new token in the answer is lost or not decodable
    | Answered

  /** What the environment does to one call of ensureAuth that misses the cache. */
  datatype Attempt = Attempt(loadOk: bool, sentAt: int, delivery: Delivery, reply: TokenReply, receivedAt: int, saveOk: bool)

  datatype TokenCache = TokenCache(accessToken: string, apiServer: string, expiresAt: int)
  {
    predicate Fresh(now: int) {
      accessToken != "" && now < expiresAt
    }
  }

  /** Without its trailing slashes. */
  function TrimRightSlash(s: string): (r: string)
    ensures r <= s && (r == "" || r[|r| - 1] != '/')
    ensures forall k :: |r| <= k < |s| ==> s[k] == '/'
  {
    if s != "" && s[|s| - 1] == '/' then TrimRightSlash(s[..|s| - 1]) else s
  }

  function Received(a: Attempt): TokenCache {
    TokenCache(a.reply.accessToken, TrimRightSlash(a.reply.apiServer), a.receivedAt + (a.reply.expiresIn - 30) * SECOND)
  }

  // ---- ensureAuth as a run of the rotation protocol ----

  /** The client's name in the protocol; the other clients do not move during the call. */
  const SELF: R.ClientId := 0

  predicate Idle(n: R.Net) {
    R.At(n, SELF, R.Idle)
  }

  /** The refresh token this call presents. */
  function Presented(n: R.Net, a: Attempt): R.Token
    requires Idle(n)
  {
    if !n.clients[SELF].loadedFromStore && a.loadOk && n.row.Some? then n.row.value
    else n.clients[SELF].refreshToken
  }

  predicate Grants(n: R.Net, a: Attempt)
    requires Idle(n)
  {
    (a.delivery.Answered? || a.delivery.ReplyLost?) && Presented(n, a) == n.current
  }

  function LoadSteps(n: R.Net, a: Attempt): seq<R.Step>
    requires Idle(n)
  {
    if n.clients[SELF].loadedFromStore then [] else if a.loadOk then [R.LoadOk(SELF)] else [R.LoadFailed(SELF)]
  }

  function ExchangeSteps(a: Attempt, grants: bool): seq<R.Step> {
    match a.delivery
    case Failed => [R.Fail(SELF)]
    case Abandoned => [R.GiveUp(SELF)]
    case ReplyLost => [R.Serve(SELF)] + if grants then [R.LoseReply(SELF)] else []
    case Answered => [R.Serve(SELF)]
                     + if grants then [R.Receive(SELF)] + [if a.saveOk then R.SaveOk(SELF) else R.SaveFailed(SELF)] else []
  }

  /** The protocol steps of a call that misses the cache. */
  function AuthSteps(n: R.Net, a: Attempt): seq<R.Step>
    requires Idle(n)
  {
    [R.Begin(SELF)] + (LoadSteps(n, a) + ([R.Send(SELF)] + ExchangeSteps(a, Grants(n, a))))
  }

  /** The state a lone call leaves behind. */
  function NetAfter(n: R.Net, a: Attempt): R.Net
    requires Idle(n)
  {
    var grants := Grants(n, a);
    var token := Presented(n, a);
    var saved := grants && a.delivery.Answered?;
    R.Net(
      if grants then n.current + 1 else n.current,
      n.configured,
      if saved && a.saveOk then Some(n.current + 1) else n.row,
      n.clients[SELF := R.Client(if saved then n.current + 1 else token, true, R.Idle)],
      if a.delivery.Abandoned? then n.abandoned + {token} else n.abandoned)
  }

  lemma Step(n: R.Net, s: R.Step, rest: seq<R.Step>)
    requires R.Enabled(n, s) && R.Possible(R.Apply(n, s), rest)
    ensures R.Possible(n, [s] + rest) && R.Run(n, [s] + rest) == R.Run(R.Apply(n, s), rest)
  {
    assert ([s] + rest)[1..] == rest;
  }

  /** What becomes of a sent request. */
  function Settle(n: R.Net, a: Attempt, grants: bool): R.Net
    requires R.At(n, SELF, R.Sent)
  {
    var client := n.clients[SELF];
    var saved := grants && a.delivery.Answered?;
    R.Net(
      if grants then n.current + 1 else n.current,
      n.configured,
      if saved && a.saveOk then Some(n.current + 1) else n.row,
      n.clients[SELF := client.(refreshToken := if saved then n.current + 1 else client.refreshToken, phase := R.Idle)],
      if a.delivery.Abandoned? then n.abandoned + {client.refreshToken} else n.abandoned)
  }

  lemma GrantRuns(n: R.Net, a: Attempt)
    requires R.At(n, SELF, R.Sent) && n.clients[SELF].refreshToken == n.current
    requires a.delivery.Answered? || a.delivery.ReplyLost?
    ensures R.Possible(n, ExchangeSteps(a, true)) && R.Run(n, ExchangeSteps(a, true)) == Settle(n, a, true)
  {
    var m := R.Apply(n, R.Serve(SELF));
    if a.delivery.Answered? {
      var save := if a.saveOk then R.SaveOk(SELF) else R.SaveFailed(SELF);
      var m2 := R.Apply(m, R.Receive(SELF));
      Step(m2, save, []);
      Step(m, R.Receive(SELF), [save]);
      Step(n, R.Serve(SELF), [R.Receive(SELF)] + [save]);
    } else {
      Step(m, R.LoseReply(SELF), []);
      Step(n, R.Serve(SELF), [R.LoseReply(SELF)]);
    }
  }

  lemma ExchangeRuns(n: R.Net, a: Attempt, grants: bool)
    requires R.At(n, SELF, R.Sent)
    requires grants <==> (a.delivery.Answered? || a.delivery.ReplyLost?) && n.clients[SELF].refreshToken == n.current
    ensures R.Possible(n, ExchangeSteps(a, grants)) && R.Run(n, ExchangeSteps(a, grants)) == Settle(n, a, grants)
  {
    if grants {
      GrantRuns(n, a);
    } else {
      Step(n, ExchangeSteps(a, grants)[0], []);
    }
  }

  /** Up to the request, only the client's own record changes. */
  lemma RequestRuns(n: R.Net, a: Attempt, tail: seq<R.Step>)
    requires Idle(n)
    ensures var sent := n.(clients := n.clients[SELF := R.Client(Presented(n, a), true, R.Sent)]);
            var steps := [R.Begin(SELF)] + (LoadSteps(n, a) + ([R.Send(SELF)] + tail));
            R.Possible(sent, tail) ==> R.Possible(n, steps) && R.Run(n, steps) == R.Run(sent, tail)
  {
    var sent := n.(clients := n.clients[SELF := R.Client(Presented(n, a), true, R.Sent)]);
    var ready := n.(clients := n.clients[SELF := R.Client(Presented(n, a), true, R.Ready)]);
    var load := LoadSteps(n, a);
    var n1 := R.Apply(n, R.Begin(SELF));
    assert n1 == n.(clients := n1.clients);
    if R.Possible(sent, tail) {
      assert R.Apply(ready, R.Send(SELF)) == sent;
      Step(ready, R.Send(SELF), tail);
      if load == [] {
        assert n1 == ready;
        assert load + ([R.Send(SELF)] + tail) == [R.Send(SELF)] + tail;
      } else {
        assert R.Apply(n1, load[0]) == ready;
        Step(n1, load[0], [R.Send(SELF)] + tail);
        assert load == [load[0]];
      }
      Step(n, R.Begin(SELF), load + ([R.Send(SELF)] + tail));
    }
  }

  /** Running the steps from an idle client is possible and ends in NetAfter. */
  lemma AuthStepsRun(n: R.Net, a: Attempt)
    requires Idle(n)
    ensures R.Possible(n, AuthSteps(n, a)) && R.Run(n, AuthSteps(n, a)) == NetAfter(n, a)
  {
    var sent := n.(clients := n.clients[SELF := R.Client(Presented(n, a), true, R.Sent)]);
    ExchangeRuns(sent, a, Grants(n, a));
    RequestRuns(n, a, ExchangeSteps(a, Grants(n, a)));
    assert R.Run(sent, ExchangeSteps(a, Grants(n, a))).clients == NetAfter(n, a).clients;
  }

  /** The client once it has chosen its token. */
  function Chosen(n: R.Net, a: Attempt): R.Net
    requires Idle(n)
  {
    n.(clients := n.clients[SELF := R.Client(Presented(n, a), true, R.Idle)])
  }

  function Sending(n: R.Net): R.Net
    requires Idle(n)
  {
    n.(clients := n.clients[SELF := n.clients[SELF].(phase := R.Sent)])
  }

  predicate Granted(n: R.Net, a: Attempt)
    requires Idle(n)
  {
    (a.delivery.Answered? || a.delivery.ReplyLost?) && n.clients[SELF].refreshToken == n.current
  }

  lemma AfterIsSettled(n: R.Net, a: Attempt)
    requires Idle(n)
    ensures NetAfter(n, a) == Settle(Sending(Chosen(n, a)), a, Granted(Chosen(n, a), a))
    ensures Granted(Chosen(n, a), a) == Grants(n, a)
  {
  }

  // ---- The client ----

  class AuthServer {
    var current: R.Token
    var abandoned: set<R.Token>

    /** Single use: the current token is replaced by its successor, any other is refused. */
    method Exchange(token: R.Token) returns (issued: Option<R.Token>)
      modifies this`current
      ensures if token == old(current) then current == old(current) + 1 && issued == Some(current)
              else current == old(current) && issued.None?
    {
      issued := None;
      if token == current {
        current := current + 1;
        issued := Some(current);
      }
    }

    method Abandon(token: R.Token)
      modifies this`abandoned
      ensures abandoned == old(abandoned) + {token}
    {
      abandoned := abandoned + {token};
    }
  }

  class OAuthTokenStore {
    var rows: map<(UserId, Broker), R.Token>

    function Row(user: UserId): Option<R.Token>
      reads this
    {
      if (user, Questrade) in rows then Some(rows[(user, Questrade)]) else None
    }

    method LoadRefreshToken(user: UserId, broker: Broker, ok: bool) returns (r: Result<Option<R.Token>, string>)
      ensures !ok ==> r.Failure?
      ensures ok ==> r == Success(if (user, broker) in rows then Some(rows[(user, broker)]) else None)
    {
      if !ok {
        return Failure("load");
      }
      if (user, broker) !in rows {
        return Success(None);
      }
      return Success(Some(rows[(user, broker)]));
    }

    method SaveRefreshToken(user: UserId, broker: Broker, token: R.Token, ok: bool) returns (saved: bool)
      modifies this
      ensures saved == ok
      ensures rows == if ok then old(rows)[(user, broker) := token] else old(rows)
    {
      if ok {
        rows := rows[(user, broker) := token];
      }
      saved := ok;
    }
  }

  datatype State = State(net: R.Net, cache: TokenCache)

  /** One call of ensureAuth: the new state, and whether it returned without an error. */
  function EnsureAuthSpec(s: State, now: int, a: Attempt): (State, bool)
    requires Idle(s.net)
  {
    if s.cache.Fresh(now) then (s, true)
    else
      var ok := Grants(s.net, a) && a.delivery.Answered?;
      (State(NetAfter(s.net, a), if ok then Received(a) else s.cache), ok)
  }

  /** A call of ensureAuth: how the protocol stood when it began, the time, and what the environment did to it. */
  datatype AuthCall = AuthCall(net: R.Net, now: int, attempt: Attempt)

  const NOBODY_ELSE := R.Net(0, 0, None, map[SELF := R.Client(0, false, R.Idle)], {})

  type Visit = v: AuthCall | Idle(v.net)
    witness AuthCall(NOBODY_ELSE, 0, Attempt(false, 0, Failed, TokenReply("", "", 0, 0), 0, false))

  const NO_TOKEN := TokenCache("", "", 0)

  /** The access token a new client has in its cache after these calls; other clients do as they please in between. */
  function CacheAfter(visits: seq<Visit>): TokenCache {
    if visits == [] then NO_TOKEN
    else
      var last := visits[|visits| - 1];
      EnsureAuthSpec(State(last.net, CacheAfter(visits[..|visits| - 1])), last.now, last.attempt).0.cache
  }

  /** What an operation that makes two API requests does: the second only after a good first answer. */
  function TwoRequestsSpec(s: State, now1: int, a1: Attempt, answered: bool, now2: int, a2: Attempt): (State, bool)
    requires Idle(s.net)
  {
    var (s1, ok1) := EnsureAuthSpec(s, now1, a1);
    if ok1 && answered then EnsureAuthSpec(s1, now2, a2) else (s1, false)
  }

  /** An answer that is there and has a first entry. */
  predicate Usable<T>(answer: Option<seq<T>>) {
    answer.Some? && answer.value != []
  }

  datatype Balance = Balance(currency: string, cash: real, totalEquity: real, buyingPower: real)

  datatype Quote = Quote(symbol: string, bid: real, ask: real)

  class Client {
    const configured: R.Token
    const user: UserId
    const server: AuthServer
    const store: OAuthTokenStore

    var refreshToken: R.Token
    var loadedFromStore: bool
    var accessToken: string
    var apiServer: string
    var expiresAt: int
    var accountId: string
    ghost var visits: seq<Visit>

    /** The cache is what the calls so far have made of it. */
    ghost predicate Valid()
      reads this
    {
      TokenCache(accessToken, apiServer, expiresAt) == CacheAfter(visits)
    }

    ghost function View(): (s: State)
      reads this, server, store
      ensures Idle(s.net)
    {
      State(
        R.Net(server.current, configured, store.Row(user),
              map[SELF := R.Client(refreshToken, loadedFromStore, R.Idle)], server.abandoned),
        TokenCache(accessToken, apiServer, expiresAt))
    }

    /** A new client knows only the configured token. */
    constructor (configured: R.Token, user: UserId, server: AuthServer, store: OAuthTokenStore)
      ensures this.configured == configured && this.user == user && this.server == server && this.store == store
      ensures refreshToken == configured && !loadedFromStore && accountId == ""
      ensures Valid() && visits == [] && View().cache == NO_TOKEN
    {
      this.configured, this.user, this.server, this.store := configured, user, server, store;
      refreshToken, loadedFromStore := configured, false;
      accessToken, apiServer, expiresAt, accountId, visits := "", "", 0, "", [];
    }

    /** The first time, the stored token takes precedence over the configured one. */
    method ChooseToken(a: Attempt)
      modifies this`refreshToken, this`loadedFromStore
      ensures loadedFromStore && refreshToken == Presented(old(View()).net, a)
    {
      if !loadedFromStore {
        loadedFromStore := true;
        var stored := store.LoadRefreshToken(user, Questrade, a.loadOk);
        if stored.Success? && stored.value.Some? {
          refreshToken := stored.value.value;
        }
      }
    }

    ghost predicate OtherRowsKept(before: map<(UserId, Broker), R.Token>)
      reads this, store
    {
      forall key :: key != (user, Questrade) ==>
        (key in store.rows <==> key in before) && (key in before ==> store.rows[key] == before[key])
    }

    /** The exchange, from the request on. */
    method Refresh(a: Attempt) returns (ok: bool)
      requires loadedFromStore
      modifies this, server, store
      ensures visits == old(visits)
      ensures var n := old(View()).net; var grants := Granted(n, a);
              && View().net == Settle(Sending(n), a, grants)
              && ok == (grants && a.delivery.Answered?)
              && View().cache == if ok then Received(a) else old(View()).cache
      ensures accountId == old(accountId) && OtherRowsKept(old(store.rows))
    {
      assert forall w: R.Client :: View().net.clients[SELF := w] == map[SELF := w];
      if a.delivery.Failed? {
        return false;
      }
      if a.delivery.Abandoned? {
        server.Abandon(refreshToken);
        return false;
      }
      var issued := server.Exchange(refreshToken);
      if issued.None? || a.delivery.ReplyLost? {
        return false;
      }
      Keep(a, issued.value);
      return true;
    }

    /** The new tokens are kept, and the refresh token is persisted if that is possible. */
    method Keep(a: Attempt, issued: R.Token)
      modifies this, store
      ensures loadedFromStore == old(loadedFromStore) && accountId == old(accountId) && visits == old(visits)
      ensures refreshToken == issued && TokenCache(accessToken, apiServer, expiresAt) == Received(a)
      ensures store.Row(user) == if a.saveOk then Some(issued) else old(store.Row(user))
      ensures OtherRowsKept(old(store.rows))
    {
      accessToken := a.reply.accessToken;
      apiServer := TrimRightSlash(a.reply.apiServer);
      refreshToken := issued;
      expiresAt := a.receivedAt + (a.reply.expiresIn - 30) * SECOND;
      var saved := store.SaveRefreshToken(user, Questrade, refreshToken, a.saveOk);
    }

    method EnsureAuth(now: int, a: Attempt) returns (ok: bool)
      requires Valid()
      modifies this, server, store
      ensures Valid() && visits == old(visits) + [AuthCall(old(View()).net, now, a)]
      ensures (View(), ok) == EnsureAuthSpec(old(View()), now, a)
      ensures accountId == old(accountId) && OtherRowsKept(old(store.rows))
      ensures var cached := old(accessToken) != "" && now < old(expiresAt);
              if !cached && ok then
                && accessToken == a.reply.accessToken
                && expiresAt == a.receivedAt + (a.reply.expiresIn - 30) * 1_000_000_000
                && apiServer <= a.reply.apiServer && (apiServer == "" || apiServer[|apiServer| - 1] != '/')
                && forall k :: |apiServer| <= k < |a.reply.apiServer| ==> a.reply.apiServer[k] == '/'
              else accessToken == old(accessToken) && apiServer == old(apiServer) && expiresAt == old(expiresAt)
    {
      ghost var before := visits;
      visits := before + [AuthCall(View().net, now, a)];
      assert visits[..|visits| - 1] == before;
      if accessToken != "" && now < expiresAt {
        return true;
      }
      ghost var n := View().net;
      ChooseToken(a);
      assert View().net == Chosen(n, a);
      AfterIsSettled(n, a);
      ok := Refresh(a);
    }

    /** One API request: authorize, then ask. `reply` is the decoded answer, None if the request fails. */
    method ApiGet<T>(now: int, a: Attempt, reply: Option<T>) returns (r: Option<T>)
      requires Valid()
      modifies this, server, store
      ensures Valid() && visits == old(visits) + [AuthCall(old(View()).net, now, a)]
      ensures View() == EnsureAuthSpec(old(View()), now, a).0
      ensures r == if EnsureAuthSpec(old(View()), now, a).1 then reply else None
      ensures accountId == old(accountId)
    {
      var ok := EnsureAuth(now, a);
      r := if ok then reply else None;
    }

    /** The first account number of this token. */
    method LookUpAccount(now: int, a: Attempt, accounts: Option<seq<string>>) returns (found: bool)
      requires Valid() && accountId == ""
      modifies this, server, store
      ensures Valid() && visits == old(visits) + [AuthCall(old(View()).net, now, a)]
      ensures var (s, ok) := EnsureAuthSpec(old(View()), now, a);
              View() == s && found == (ok && Usable(accounts))
      ensures accountId == if found then accounts.value[0] else ""
    {
      var first: Option<seq<string>> := ApiGet(now, a, accounts);
      found := first.Some? && first.value != [];
      if found {
        accountId := first.value[0];
      }
    }

    /** The account id is looked up once and kept, even if the balances then fail. */
    method GetAccount(now1: int, a1: Attempt, accounts: Option<seq<string>>,
                      now2: int, a2: Attempt, balances: Option<seq<Balance>>)
      returns (r: Option<Account>)
      requires Valid()
      modifies this, server, store
      ensures Valid() && old(visits) <= visits
      ensures var lookUp := old(accountId) == "";
              var (s, ok) := if lookUp then TwoRequestsSpec(old(View()), now1, a1, Usable(accounts), now2, a2)
                             else EnsureAuthSpec(old(View()), now2, a2);
              && View() == s
              && (r.Some? <==> ok && Usable(balances))
              && accountId == if lookUp && EnsureAuthSpec(old(View()), now1, a1).1 && Usable(accounts)
                              then accounts.value[0] else old(accountId)
      ensures r.Some? ==>
        && r.value.id == accountId && r.value.broker == Questrade
        && r.value.currency == balances.value[0].currency && r.value.equity == balances.value[0].totalEquity
        && r.value.buyingPower == balances.value[0].buyingPower && r.value.cash == balances.value[0].cash
    {
      if accountId == "" {
        var found := LookUpAccount(now1, a1, accounts);
        if !found {
          return None;
        }
      }
      var second: Option<seq<Balance>> := ApiGet(now2, a2, balances);
      if second.None? || second.value == [] {
        return None;
      }
      var bal := second.value[0];
      return Some(Account(accountId, Questrade, bal.currency, bal.totalEquity, bal.buyingPower, bal.cash));
    }

    method GetQuote(symbol: string, now1: int, a1: Attempt, symbolIds: Option<seq<int>>,
                    now2: int, a2: Attempt, quotes: Option<seq<Quote>>)
      returns (r: Option<Quote>)
      requires Valid()
      modifies this, server, store
      ensures Valid() && old(visits) <= visits
      ensures var (s, ok) := TwoRequestsSpec(old(View()), now1, a1, Usable(symbolIds), now2, a2);
              && View() == s
              && r == if ok && Usable(quotes) then Some(Quote(symbol, quotes.value[0].bid, quotes.value[0].ask)) else None
      ensures accountId == old(accountId)
    {
      var ids: Option<seq<int>> := ApiGet(now1, a1, symbolIds);
      if ids.None? || ids.value == [] {
        return None;
      }
      var found: Option<seq<Quote>> := ApiGet(now2, a2, quotes);
      if found.None? || found.value == [] {
        return None;
      }
      return Some(Quote(symbol, found.value[0].bid, found.value[0].ask));
    }
  }

  // ---- Timing of the access-token cache ----

  /** Call i found the cache stale and went to the token endpoint. */
  predicate Misses(visits: seq<Visit>, i: nat)
    requires i < |visits|
  {
    !CacheAfter(visits[..i]).Fresh(visits[i].now)
  }

  /** And was granted a token. */
  predicate Exchanged(visits: seq<Visit>, i: nat)
    requires i < |visits|
  {
    Misses(visits, i) && Grants(visits[i].net, visits[i].attempt) && visits[i].attempt.delivery.Answered?
  }

  /** When the server stops honouring the cached access token. */
  function ValidUntil(visits: seq<Visit>): int {
    if visits == [] then 0
    else
      var last := |visits| - 1;
      if Exchanged(visits, last)
      then visits[last].attempt.reply.issuedAt + visits[last].attempt.reply.expiresIn * SECOND
      else ValidUntil(visits[..last])
  }

  /**
   * The server issues a token between the request and its reply, the reply
   * arrives within the HTTP timeout, and the next call comes later.
   */
  ghost predicate WellTimed(visits: seq<Visit>) {
    && (forall i {:trigger visits[i]} :: 0 <= i < |visits| && Exchanged(visits, i) ==>
          var a := visits[i].attempt;
          visits[i].now <= a.sentAt <= a.reply.issuedAt <= a.receivedAt <= a.sentAt + HTTP_TIMEOUT)
    && (forall i, j :: 0 <= i < j < |visits| ==>
          visits[i].now <= visits[j].now && (Exchanged(visits, i) ==> visits[i].attempt.receivedAt <= visits[j].now))
  }

  ghost predicate TokensNonEmpty(visits: seq<Visit>) {
    forall i :: 0 <= i < |visits| && Exchanged(visits, i) ==> visits[i].attempt.reply.accessToken != ""
  }

  lemma PrefixSame(visits: seq<Visit>, n: nat, i: nat)
    requires i < n <= |visits|
    ensures visits[..n][..i] == visits[..i] && visits[..n][i] == visits[i]
    ensures Exchanged(visits[..n], i) <==> Exchanged(visits, i)
  {
  }

  lemma PrefixWellTimed(visits: seq<Visit>, n: nat)
    requires WellTimed(visits) && n <= |visits|
    ensures WellTimed(visits[..n])
  {
    forall i | 0 <= i < n
      ensures Exchanged(visits[..n], i) <==> Exchanged(visits, i)
    {
      PrefixSame(visits, n, i);
    }
  }

  /** Thirty seconds of margin less at most ten of exchange. */
  lemma MarginOfReply(a: Attempt)
    requires a.sentAt <= a.reply.issuedAt && a.receivedAt <= a.sentAt + HTTP_TIMEOUT
    ensures a.reply.issuedAt + a.reply.expiresIn * SECOND >= Received(a).expiresAt + 20 * SECOND
  {
  }

  lemma {:induction false} MarginKept(visits: seq<Visit>)
    requires WellTimed(visits)
    ensures CacheAfter(visits).accessToken != "" ==> ValidUntil(visits) >= CacheAfter(visits).expiresAt + 20 * SECOND
  {
    if visits != [] {
      var last := |visits| - 1;
      if Exchanged(visits, last) {
        MarginOfReply(visits[last].attempt);
        assert CacheAfter(visits) == Received(visits[last].attempt);
      } else {
        PrefixWellTimed(visits, last);
        MarginKept(visits[..last]);
        assert CacheAfter(visits) == CacheAfter(visits[..last]);
      }
    }
  }

  /**
   * In every run of one client, whatever the others do in between: whenever
   * ensureAuth returns on the cached path, more than 20 seconds of the access
   * token's life remain at the server, so an API request started at once and
   * cut off by the HTTP timeout ends with more than 10 to spare.
   */
  lemma CachedTokenOutlivesRequest(visits: seq<Visit>, now: int, end: int)
    requires WellTimed(visits) && CacheAfter(visits).Fresh(now)
    requires now <= end <= now + 10_000_000_000
    ensures ValidUntil(visits) - now > 20_000_000_000
    ensures ValidUntil(visits) - end > 10_000_000_000
  {
    MarginKept(visits);
  }

  /** Without another exchange in between, the cache is still the one call i filled. */
  lemma {:induction false} CacheSince(visits: seq<Visit>, i: nat, j: nat)
    requires i < j <= |visits| && Exchanged(visits, i)
    requires forall k: nat :: i < k < j ==> !Exchanged(visits, k)
    ensures CacheAfter(visits[..j]) == Received(visits[i].attempt)
    decreases j
  {
    assert visits[..j][..j - 1] == visits[..j - 1] && visits[..j][j - 1] == visits[j - 1];
    if i < j - 1 {
      CacheSince(visits, i, j - 1);
      assert !Exchanged(visits, j - 1);
    }
  }

  /**
   * In every run of one client, after a successful exchange the next visit to
   * the token endpoint, and every later one, comes no sooner than the token's
   * lifetime less 30 seconds after the reply.
   */
  lemma {:induction false} ExchangesAreSpaced(visits: seq<Visit>, i: nat, j: nat)
    requires WellTimed(visits) && TokensNonEmpty(visits)
    requires i < j < |visits| && Exchanged(visits, i) && Misses(visits, j)
    ensures visits[j].now >= visits[i].attempt.receivedAt + (visits[i].attempt.reply.expiresIn - 30) * 1_000_000_000
    decreases j
  {
    if k: nat :| i < k < j && Exchanged(visits, k) {
      ExchangesAreSpaced(visits, i, k);
    } else {
      CacheSince(visits, i, j);
    }
  }

  /**
   * GetAccount or GetQuote on a new client, while the user's other clients do
   * as they please between its two requests: the first request uses one
   * refresh token. If the second comes before the access token is due for
   * renewal it uses none and touches nothing; if later, it is granted one
   * exactly if it reaches the endpoint and nobody has rotated in between.
   */
  lemma TokensPerVisit(s: State, now1: int, a1: Attempt, between: R.Net, now2: int, a2: Attempt)
    requires Idle(s.net) && s.cache == NO_TOKEN
    requires Grants(s.net, a1) && a1.delivery.Answered? && a1.reply.accessToken != ""
    requires Idle(between) && between.clients[SELF] == NetAfter(s.net, a1).clients[SELF]
    ensures var (s1, ok1) := EnsureAuthSpec(s, now1, a1);
            var meanwhile := State(between, s1.cache);
            var (s2, ok2) := EnsureAuthSpec(meanwhile, now2, a2);
            var due := a1.receivedAt + (a1.reply.expiresIn - 30) * SECOND;
            && ok1 && s1.net.current == s.net.current + 1
            && (now2 < due ==> s2 == meanwhile && ok2)
            && (due <= now2 ==>
                  s2.net.current == between.current +
                    if (a2.delivery.Answered? || a2.delivery.ReplyLost?) && between.current == s.net.current + 1
                    then 1 else 0)
  {
  }
}
