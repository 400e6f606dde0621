/**
 * The unified balance: one goroutine per connected broker
 * (internal/httpapi/market_handlers.go lines 41-85) and the roll-up into US
 * dollars (internal/engine/balance.go).
 */
module Balance {
  import opened Wrappers
  import opened Models

  // ---- Rolling up ----

  function USDRate(currency: string, usdCadRate: real): real {
    if currency == "CAD" then usdCadRate else 1.0
  }

  datatype Totals = Totals(equity: real, buyingPower: real, cash: real)
  {
    function Plus(other: Totals): Totals {
      Totals(equity + other.equity, buyingPower + other.buyingPower, cash + other.cash)
    }
  }

  const NOTHING := Totals(0.0, 0.0, 0.0)

  function InUSD(account: Account, usdCadRate: real): Totals {
    var rate := USDRate(account.currency, usdCadRate);
    Totals(account.equity * rate, account.buyingPower * rate, account.cash * rate)
  }

  /** The sum of the accounts, each in dollars. */
  function Sum(accounts: seq<Account>, usdCadRate: real): Totals {
    if accounts == [] then NOTHING
    else Sum(accounts[..|accounts| - 1], usdCadRate).Plus(InUSD(accounts[|accounts| - 1], usdCadRate))
  }

  lemma SumAppend(accounts: seq<Account>, i: nat, usdCadRate: real)
    requires i < |accounts|
    ensures Sum(accounts[..i + 1], usdCadRate) == Sum(accounts[..i], usdCadRate).Plus(InUSD(accounts[i], usdCadRate))
  {
    assert accounts[..i + 1][..i] == accounts[..i];
  }

  /** The plain sums over the accounts in Canadian dollars, or over all the others, with no conversion. */
  function PlainSum(accounts: seq<Account>, canadian: bool): Totals {
    if accounts == [] then NOTHING
    else PlainSum(accounts[..|accounts| - 1], canadian).Plus(Plain(accounts[|accounts| - 1], canadian))
  }

  /** Totals in dollars: Canadian amounts at the rate, all others as they are. */
  predicate InDollars(totals: Totals, others: Totals, canadian: Totals, usdCadRate: real) {
    && totals.equity == others.equity + usdCadRate * canadian.equity
    && totals.buyingPower == others.buyingPower + usdCadRate * canadian.buyingPower
    && totals.cash == others.cash + usdCadRate * canadian.cash
  }

  lemma Distribute(rate: real, a: real, b: real)
    ensures rate * (a + b) == rate * a + rate * b
  {
  }

  lemma PlusInDollars(sum: Totals, others: Totals, canadian: Totals, x: Totals, y: Totals, z: Totals, usdCadRate: real)
    requires InDollars(sum, others, canadian, usdCadRate) && InDollars(x, y, z, usdCadRate)
    ensures InDollars(sum.Plus(x), others.Plus(y), canadian.Plus(z), usdCadRate)
  {
    Distribute(usdCadRate, canadian.equity, z.equity);
    Distribute(usdCadRate, canadian.buyingPower, z.buyingPower);
    Distribute(usdCadRate, canadian.cash, z.cash);
  }

  function Plain(account: Account, canadian: bool): Totals {
    if (account.currency == "CAD") == canadian then Totals(account.equity, account.buyingPower, account.cash) else NOTHING
  }

  lemma AccountInDollars(account: Account, usdCadRate: real)
    ensures InDollars(InUSD(account, usdCadRate), Plain(account, false), Plain(account, true), usdCadRate)
  {
  }

  /** Each total is the plain sum over the accounts not in CAD plus the rate times the plain sum over those in CAD. */
  lemma {:induction false} SumInDollars(accounts: seq<Account>, usdCadRate: real)
    ensures InDollars(Sum(accounts, usdCadRate), PlainSum(accounts, false), PlainSum(accounts, true), usdCadRate)
  {
    if accounts != [] {
      var init, last := accounts[..|accounts| - 1], accounts[|accounts| - 1];
      SumInDollars(init, usdCadRate);
      AccountInDollars(last, usdCadRate);
      PlusInDollars(Sum(init, usdCadRate), PlainSum(init, false), PlainSum(init, true),
                    InUSD(last, usdCadRate), Plain(last, false), Plain(last, true), usdCadRate);
    }
  }

  datatype UnifiedBalance = UnifiedBalance(totals: Totals, byAccount: seq<Account>)

  /** One account, in dollars, on top of the running totals. */
  method AddAccount(equity: real, buyingPower: real, cash: real, acct: Account, usdCadRate: real)
    returns (equity': real, buyingPower': real, cash': real)
    ensures Totals(equity', buyingPower', cash') == Totals(equity, buyingPower, cash).Plus(InUSD(acct, usdCadRate))
  {
    var rate := USDRate(acct.currency, usdCadRate);
    equity' := equity + acct.equity * rate;
    buyingPower' := buyingPower + acct.buyingPower * rate;
    cash' := cash + acct.cash * rate;
  }

  method AggregateBalances(accounts: seq<Account>, usdCadRate: real) returns (unified: UnifiedBalance)
    ensures unified == UnifiedBalance(Sum(accounts, usdCadRate), accounts)
    ensures InDollars(unified.totals, PlainSum(accounts, false), PlainSum(accounts, true), usdCadRate)
  {
    SumInDollars(accounts, usdCadRate);
    var equity, buyingPower, cash := 0.0, 0.0, 0.0;
    for i := 0 to |accounts|
      invariant Totals(equity, buyingPower, cash) == Sum(accounts[..i], usdCadRate)
    {
      SumAppend(accounts, i, usdCadRate);
      equity, buyingPower, cash := AddAccount(equity, buyingPower, cash, accounts[i], usdCadRate);
    }
    assert accounts[..|accounts|] == accounts;
    unified := UnifiedBalance(Totals(equity, buyingPower, cash), accounts);
  }

  lemma {:induction false} SumConcat(a: seq<Account>, b: seq<Account>, usdCadRate: real)
    ensures Sum(a + b, usdCadRate) == Sum(a, usdCadRate).Plus(Sum(b, usdCadRate))
  {
    if b == [] {
      assert a + b == a;
    } else {
      assert (a + b)[..|a + b| - 1] == a + b[..|b| - 1];
      SumConcat(a, b[..|b| - 1], usdCadRate);
    }
  }

  lemma SumSplit(a: seq<Account>, i: nat, usdCadRate: real)
    requires i < |a|
    ensures Sum(a, usdCadRate) == Sum(a[..i] + a[i + 1..], usdCadRate).Plus(InUSD(a[i], usdCadRate))
  {
    assert a == a[..i] + [a[i]] + a[i + 1..];
    SumConcat(a[..i] + [a[i]], a[i + 1..], usdCadRate);
    SumConcat(a[..i], [a[i]], usdCadRate);
    SumConcat(a[..i], a[i + 1..], usdCadRate);
    assert [a[i]][..0] == [];
  }

  lemma SumFirst(a: seq<Account>, usdCadRate: real)
    requires a != []
    ensures Sum(a, usdCadRate) == Sum(a[1..], usdCadRate).Plus(InUSD(a[0], usdCadRate))
  {
    SumSplit(a, 0, usdCadRate);
    assert a[..0] + a[0 + 1..] == a[1..];
  }

  lemma Cancel(m: multiset<Account>, n: multiset<Account>, x: Account)
    requires m + multiset{x} == n + multiset{x}
    ensures m == n
  {
    forall y: Account
      ensures m[y] == n[y]
    {
      assert (m + multiset{x})[y] == (n + multiset{x})[y];
    }
  }

  lemma TakeOut(s: seq<Account>, i: nat)
    requires i < |s|
    ensures multiset(s) == multiset(s[..i] + s[i + 1..]) + multiset{s[i]}
  {
    assert s == s[..i] + ([s[i]] + s[i + 1..]);
    assert multiset(s) == multiset(s[..i]) + (multiset{s[i]} + multiset(s[i + 1..]));
  }

  lemma IndexOf(s: seq<Account>, x: Account) returns (i: nat)
    requires x in multiset(s)
    ensures i < |s| && s[i] == x
  {
    i :| 0 <= i < |s| && s[i] == x;
  }

  lemma RemoveFirst(a: seq<Account>, b: seq<Account>) returns (i: nat)
    requires a != [] && multiset(a) == multiset(b)
    ensures i < |b| && b[i] == a[0] && multiset(a[1..]) == multiset(b[..i] + b[i + 1..])
  {
    assert a[..0] + a[0 + 1..] == a[1..];
    TakeOut(a, 0);
    i := IndexOf(b, a[0]);
    TakeOut(b, i);
    Cancel(multiset(a[1..]), multiset(b[..i] + b[i + 1..]), a[0]);
  }

  /** The totals do not depend on the order of the accounts. */
  lemma {:induction false} SumPermutation(a: seq<Account>, b: seq<Account>, usdCadRate: real)
    requires multiset(a) == multiset(b)
    ensures Sum(a, usdCadRate) == Sum(b, usdCadRate)
    decreases |a|
  {
    if a == [] {
      assert |b| == |multiset(b)| == 0;
    } else {
      var i := RemoveFirst(a, b);
      SumPermutation(a[1..], b[..i] + b[i + 1..], usdCadRate);
      SumFirst(a, usdCadRate);
      SumSplit(b, i, usdCadRate);
    }
  }

  // ---- The fan-out ----

  type Reply = Result<Account, string>

  datatype Fetch = Fetch(broker: Broker, reply: Reply)

  /** What fetching the brokers one by one would give. */
  function OneByOne(brokers: seq<Broker>, replies: seq<Reply>): seq<Fetch>
    requires |brokers| == |replies|
  {
    seq(|brokers|, i requires 0 <= i < |brokers| => Fetch(brokers[i], replies[i]))
  }

  /** An order in which n goroutines may finish. */
  ghost predicate Schedule(order: seq<nat>, n: nat) {
    && |order| == n
    && (forall k :: 0 <= k < n ==> order[k] < n)
    && (forall i: nat :: i < n ==> i in order)
  }

  /** Each goroutine fills the slot of its own broker; `order` is the order in which they finish. */
  method FanOut(brokers: seq<Broker>, replies: seq<Reply>, order: seq<nat>) returns (results: array<Fetch>)
    requires |brokers| == |replies| && Schedule(order, |brokers|)
    ensures fresh(results) && results[..] == OneByOne(brokers, replies)
    ensures results.Length == |brokers|
    ensures forall i :: 0 <= i < |brokers| ==> results[i].broker == brokers[i] && results[i].reply == replies[i]
  {
    results := new Fetch[|brokers|](i => Fetch(Alpaca, Failure("")));
    for k := 0 to |order|
      invariant forall j :: 0 <= j < k ==> results[order[j]] == Fetch(brokers[order[j]], replies[order[j]])
    {
      var i := order[k];
      results[i] := Fetch(brokers[i], replies[i]);
    }
    forall i: nat | i < |brokers|
      ensures results[i] == Fetch(brokers[i], replies[i])
    {
      assert i in order;
      var j :| 0 <= j < |order| && order[j] == i;
    }
  }

  // ---- The response ----

  /** An account record on the heap, which a status points to. */
  class AccountCell {
    const account: Account

    constructor (account: Account)
      ensures this.account == account
    {
      this.account := account;
    }
  }

  datatype BrokerStatus = BrokerStatus(broker: Broker, account: AccountCell?, equityUSD: Option<real>, error: Option<string>)

  /** A status with the account it points to in place of the pointer. */
  datatype StatusView = StatusView(broker: Broker, account: Option<Account>, equityUSD: Option<real>, error: Option<string>)

  function View(s: BrokerStatus): StatusView {
    StatusView(s.broker, if s.account == null then None else Some(s.account.account), s.equityUSD, s.error)
  }

  function StatusOf(f: Fetch, usdCadRate: real): StatusView {
    match f.reply
    case Failure(error) => StatusView(f.broker, None, None, Some(error))
    case Success(account) =>
      StatusView(f.broker, Some(account), Some(InUSD(account, usdCadRate).equity), None)
  }

  /** The accounts of the brokers that answered, in broker order. */
  function Answered(fetches: seq<Fetch>): seq<Account> {
    if fetches == [] then []
    else Answered(fetches[..|fetches| - 1])
         + if fetches[|fetches| - 1].reply.Success? then [fetches[|fetches| - 1].reply.value] else []
  }

  ghost predicate Shows(statuses: seq<BrokerStatus>, fetches: seq<Fetch>, usdCadRate: real) {
    && |statuses| == |fetches|
    && (forall i :: 0 <= i < |fetches| ==> View(statuses[i]) == StatusOf(fetches[i], usdCadRate))
  }

  /** No two statuses point to the same account record. */
  ghost predicate Unshared(statuses: seq<BrokerStatus>) {
    forall i, j :: 0 <= i < j < |statuses| && statuses[i].account != null ==> statuses[i].account != statuses[j].account
  }

  lemma ShowsAppend(statuses: seq<BrokerStatus>, s: BrokerStatus, fetches: seq<Fetch>, f: Fetch, usdCadRate: real)
    requires Shows(statuses, fetches, usdCadRate) && View(s) == StatusOf(f, usdCadRate)
    ensures Shows(statuses + [s], fetches + [f], usdCadRate)
  {
  }

  lemma UnsharedAppend(statuses: seq<BrokerStatus>, s: BrokerStatus)
    requires Unshared(statuses)
    requires s.account != null ==> forall k :: 0 <= k < |statuses| ==> statuses[k].account != s.account
    ensures Unshared(statuses + [s])
  {
  }

  /** A status of a broker that answered: its account, in its own currency and in dollars. */
  predicate ShowsAccount(s: BrokerStatus, account: Account, usdCadRate: real) {
    && s.account != null && s.account.account == account && s.error.None?
    && s.equityUSD.Some?
    && s.equityUSD.value == if account.currency == "CAD" then account.equity * usdCadRate else account.equity
  }

  /** A status of a broker that did not. */
  predicate ShowsError(s: BrokerStatus, error: string) {
    s.account == null && s.equityUSD.None? && s.error == Some(error)
  }

  lemma StatusMeans(s: BrokerStatus, f: Fetch, usdCadRate: real)
    requires View(s) == StatusOf(f, usdCadRate)
    ensures s.broker == f.broker
    ensures f.reply.Success? ==> ShowsAccount(s, f.reply.value, usdCadRate)
    ensures f.reply.Failure? ==> ShowsError(s, f.reply.error)
  {
    if f.reply.Success? {
      var account := f.reply.value;
      assert View(s).account == Some(account) && View(s).equityUSD == Some(InUSD(account, usdCadRate).equity);
      if account.currency == "CAD" {
        assert InUSD(account, usdCadRate).equity == account.equity * usdCadRate;
      } else {
        assert InUSD(account, usdCadRate).equity == account.equity * 1.0 == account.equity;
      }
    }
  }

  /** The accounts are those of the brokers that answered, each once and in the brokers' order. */
  ghost predicate AreAnswers(accounts: seq<Account>, replies: seq<Reply>, picks: seq<nat>) {
    && |picks| == |accounts|
    && (forall k :: 0 <= k < |picks| ==> picks[k] < |replies| && replies[picks[k]] == Success(accounts[k]))
    && (forall j, k :: 0 <= j < k < |picks| ==> picks[j] < picks[k])
    && (forall i: nat :: i < |replies| && replies[i].Success? ==> i in picks)
  }

  lemma OneMoreAnswer(accounts: seq<Account>, replies: seq<Reply>, picks: seq<nat>, account: Account)
    requires AreAnswers(accounts, replies, picks)
    ensures AreAnswers(accounts + [account], replies + [Success(account)], picks + [|replies|])
  {
    var longer, more := replies + [Success(account)], picks + [|replies|];
    assert more[|picks|] == |replies|;
    assert forall k :: 0 <= k < |picks| ==> more[k] == picks[k] && longer[picks[k]] == replies[picks[k]];
    forall i: nat | i < |longer| && longer[i].Success?
      ensures i in more
    {
      if i < |replies| {
        assert i in picks;
      }
    }
  }

  lemma NoMoreAnswers(accounts: seq<Account>, replies: seq<Reply>, picks: seq<nat>, reply: Reply)
    requires AreAnswers(accounts, replies, picks) && reply.Failure?
    ensures AreAnswers(accounts, replies + [reply], picks)
  {
    assert forall k :: 0 <= k < |picks| ==> (replies + [reply])[picks[k]] == replies[picks[k]];
  }

  lemma {:induction false} AnsweredAre(fetches: seq<Fetch>, replies: seq<Reply>) returns (picks: seq<nat>)
    requires |fetches| == |replies| && forall i :: 0 <= i < |replies| ==> fetches[i].reply == replies[i]
    ensures AreAnswers(Answered(fetches), replies, picks)
  {
    if fetches == [] {
      picks := [];
    } else {
      var last := |fetches| - 1;
      var init, accounts := replies[..last], Answered(fetches[..last]);
      assert replies == init + [replies[last]];
      picks := AnsweredAre(fetches[..last], init);
      if replies[last].Success? {
        OneMoreAnswer(accounts, init, picks, replies[last].value);
        picks := picks + [last];
      } else {
        NoMoreAnswers(accounts, init, picks, replies[last]);
        assert Answered(fetches) == accounts + [] == accounts;
      }
    }
  }

  datatype Response = Response(unified: UnifiedBalance, brokers: seq<BrokerStatus>)

  /** A status with an account record of its own. */
  method NewStatus(res: Fetch, usdCadRate: real) returns (status: BrokerStatus)
    ensures View(status) == StatusOf(res, usdCadRate)
    ensures status.account != null ==> fresh(status.account)
  {
    if res.reply.Failure? {
      return BrokerStatus(res.broker, null, None, Some(res.reply.error));
    }
    var account := res.reply.value;
    var equityUSD := account.equity * USDRate(account.currency, usdCadRate);
    var cell := new AccountCell(account);
    assert equityUSD == InUSD(account, usdCadRate).equity;
    status := BrokerStatus(res.broker, cell, Some(equityUSD), None);
  }

  method AppendStatus(statuses: seq<BrokerStatus>, ghost done: seq<Fetch>, res: Fetch, usdCadRate: real)
    returns (more: seq<BrokerStatus>)
    requires Shows(statuses, done, usdCadRate) && Unshared(statuses)
    ensures Shows(more, done + [res], usdCadRate) && Unshared(more)
  {
    var status := NewStatus(res, usdCadRate);
    UnsharedAppend(statuses, status);
    ShowsAppend(statuses, status, done, res, usdCadRate);
    more := statuses + [status];
  }

  lemma AnsweredAppend(fetches: seq<Fetch>, f: Fetch)
    ensures Answered(fetches + [f]) == Answered(fetches) + if f.reply.Success? then [f.reply.value] else []
  {
    assert (fetches + [f])[..|fetches|] == fetches;
  }

  /** One status per result, each with its own account record, and the accounts that answered. */
  method BuildStatuses(results: seq<Fetch>, usdCadRate: real) returns (statuses: seq<BrokerStatus>, accounts: seq<Account>)
    ensures Shows(statuses, results, usdCadRate) && Unshared(statuses)
    ensures accounts == Answered(results)
  {
    statuses, accounts := [], [];
    for i := 0 to |results|
      invariant Shows(statuses, results[..i], usdCadRate) && Unshared(statuses)
      invariant accounts == Answered(results[..i])
    {
      assert results[..i + 1] == results[..i] + [results[i]];
      AnsweredAppend(results[..i], results[i]);
      statuses := AppendStatus(statuses, results[..i], results[i], usdCadRate);
      if results[i].reply.Failure? {
        continue;
      }
      accounts := accounts + [results[i].reply.value];
    }
    assert results[..|results|] == results;
  }

  /** The whole request once the brokers are built: whatever the schedule, the response is that of fetching one by one. */
  method HandleBalance(brokers: seq<Broker>, replies: seq<Reply>, order: seq<nat>, usdCadRate: real)
    returns (response: Response)
    requires |brokers| == |replies| && Schedule(order, |brokers|)
    ensures Shows(response.brokers, OneByOne(brokers, replies), usdCadRate)
    ensures Unshared(response.brokers)
    ensures response.unified.byAccount == Answered(OneByOne(brokers, replies))
    ensures response.unified.totals == Sum(Answered(OneByOne(brokers, replies)), usdCadRate)
    ensures |response.brokers| == |brokers|
    ensures forall i :: 0 <= i < |brokers| ==> response.brokers[i].broker == brokers[i]
    ensures forall i :: 0 <= i < |brokers| && replies[i].Success? ==>
              ShowsAccount(response.brokers[i], replies[i].value, usdCadRate)
    ensures forall i :: 0 <= i < |brokers| && replies[i].Failure? ==> ShowsError(response.brokers[i], replies[i].error)
    ensures exists picks :: AreAnswers(response.unified.byAccount, replies, picks)
    ensures var accounts := response.unified.byAccount;
            InDollars(response.unified.totals, PlainSum(accounts, false), PlainSum(accounts, true), usdCadRate)
  {
    var results := FanOut(brokers, replies, order);
    var statuses, accounts := BuildStatuses(results[..], usdCadRate);
    var unified := AggregateBalances(accounts, usdCadRate);
    response := Response(unified, statuses);
    ghost var picks := AnsweredAre(results[..], replies);
    forall i | 0 <= i < |brokers|
      ensures statuses[i].broker == brokers[i]
      ensures replies[i].Success? ==> ShowsAccount(statuses[i], replies[i].value, usdCadRate)
      ensures replies[i].Failure? ==> ShowsError(statuses[i], replies[i].error)
    {
      StatusMeans(statuses[i], results[i], usdCadRate);
    }
  }

  // ---- What the response adds up to ----

  function StatusesOf(fetches: seq<Fetch>, usdCadRate: real): seq<StatusView> {
    seq(|fetches|, i requires 0 <= i < |fetches| => StatusOf(fetches[i], usdCadRate))
  }

  /** The sum of the dollar equities shown. */
  function ShownEquity(statuses: seq<StatusView>): real {
    if statuses == [] then 0.0
    else ShownEquity(statuses[..|statuses| - 1])
         + if statuses[|statuses| - 1].equityUSD.Some? then statuses[|statuses| - 1].equityUSD.value else 0.0
  }

  /** The per-broker dollar equities add up to the unified total. */
  lemma {:induction false} EquitiesAddUp(fetches: seq<Fetch>, usdCadRate: real)
    ensures ShownEquity(StatusesOf(fetches, usdCadRate)) == Sum(Answered(fetches), usdCadRate).equity
  {
    if fetches != [] {
      var init, last := fetches[..|fetches| - 1], fetches[|fetches| - 1];
      EquitiesAddUp(init, usdCadRate);
      assert StatusesOf(fetches, usdCadRate)[..|init|] == StatusesOf(init, usdCadRate);
      assert StatusesOf(fetches, usdCadRate)[|init|] == StatusOf(last, usdCadRate);
      if last.reply.Success? {
        var accounts := Answered(init) + [last.reply.value];
        assert accounts[..|accounts| - 1] == Answered(init);
      } else {
        assert Answered(fetches) == Answered(init);
      }
    }
  }

  /** What a broker adds to the totals. */
  function Contribution(reply: Reply, usdCadRate: real): Totals {
    if reply.Success? then InUSD(reply.value, usdCadRate) else NOTHING
  }

  lemma {:induction false} AnsweredConcat(a: seq<Fetch>, b: seq<Fetch>)
    ensures Answered(a + b) == Answered(a) + Answered(b)
  {
    if b == [] {
      assert a + b == a;
    } else {
      assert (a + b)[..|a + b| - 1] == a + b[..|b| - 1];
      AnsweredConcat(a, b[..|b| - 1]);
    }
  }

  lemma TotalsSplit(fetches: seq<Fetch>, j: nat, usdCadRate: real)
    requires j < |fetches|
    ensures Sum(Answered(fetches), usdCadRate)
         == Sum(Answered(fetches[..j]), usdCadRate)
            .Plus(Contribution(fetches[j].reply, usdCadRate))
            .Plus(Sum(Answered(fetches[j + 1..]), usdCadRate))
  {
    assert fetches == fetches[..j] + [fetches[j]] + fetches[j + 1..];
    AnsweredConcat(fetches[..j] + [fetches[j]], fetches[j + 1..]);
    AnsweredConcat(fetches[..j], [fetches[j]]);
    assert [fetches[j]][..0] == [];
    SumConcat(Answered(fetches[..j]) + Answered([fetches[j]]), Answered(fetches[j + 1..]), usdCadRate);
    SumConcat(Answered(fetches[..j]), Answered([fetches[j]]), usdCadRate);
    if fetches[j].reply.Success? {
      assert Answered([fetches[j]]) == [fetches[j].reply.value];
      assert [fetches[j].reply.value][..0] == [];
    }
  }

  /** A broker's reply, a failure above all, touches no status but its own. */
  lemma OtherStatusesUnaffected(brokers: seq<Broker>, replies: seq<Reply>, j: nat, reply: Reply, usdCadRate: real)
    requires |brokers| == |replies| && j < |replies|
    ensures StatusesOf(OneByOne(brokers, replies[j := reply]), usdCadRate)
         == StatusesOf(OneByOne(brokers, replies), usdCadRate)[j := StatusOf(Fetch(brokers[j], reply), usdCadRate)]
  {
  }

  lemma Rearrange(before: Totals, after: Totals, left: Totals, x: Totals, y: Totals, right: Totals)
    requires before == left.Plus(x).Plus(right) && after == left.Plus(y).Plus(right)
    ensures after.Plus(x) == before.Plus(y)
  {
  }

  /** And it changes the totals by the difference of its own contributions. */
  lemma OtherContributionsUnaffected(before: seq<Fetch>, after: seq<Fetch>, j: nat, usdCadRate: real)
    requires j < |before| == |after| && after == before[j := after[j]]
    ensures Sum(Answered(after), usdCadRate).Plus(Contribution(before[j].reply, usdCadRate))
         == Sum(Answered(before), usdCadRate).Plus(Contribution(after[j].reply, usdCadRate))
  {
    assert before[..j] == after[..j] && before[j + 1..] == after[j + 1..];
    TotalsSplit(before, j, usdCadRate);
    TotalsSplit(after, j, usdCadRate);
    Rearrange(Sum(Answered(before), usdCadRate), Sum(Answered(after), usdCadRate),
              Sum(Answered(before[..j]), usdCadRate), Contribution(before[j].reply, usdCadRate),
              Contribution(after[j].reply, usdCadRate), Sum(Answered(before[j + 1..]), usdCadRate));
  }
}
