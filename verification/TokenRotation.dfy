/**
 * The refresh-token rotation protocol (internal/brokerage/questrade/client.go
 * lines 86-148): one authorization server, one stored row, and any number of
 * clients of the same user with no lock between them, interleaved step by
 * step. Tokens are numbered by generation: one lineage per user.
 */
module TokenRotation {
  import opened Wrappers

  type Token = nat
  type ClientId = nat

  /** Where a client is inside ensureAuth. */
  datatype Phase =
    | Idle                    // outside ensureAuth
    | Loading                 // access token missing or expired; the row has not been read yet
    | Ready                   // refresh token chosen
    | Sent                    // exchange request under way
    | Granted(issued: Token)  // the server has rotated; the reply is under way
    | Saving                  // reply decoded; about to upsert the new refresh token

  datatype Client = Client(refreshToken: Token, loadedFromStore: bool, phase: Phase)

  /**
   * `current` is the one token the server accepts, `configured` the token in
   * the user's credentials, `row` the persisted token. A client that gives up
   * leaves its request travelling; the server may still act on it.
   */
  datatype Net = Net(current: Token, configured: Token, row: Option<Token>,
                     clients: map<ClientId, Client>, abandoned: set<Token>)

  datatype Step =
    | Start(c: ClientId)          // a new client for a request
    | CachedReturn(c: ClientId)   // the access token is still good
    | Begin(c: ClientId)          // it is not
    | LoadOk(c: ClientId)
    | LoadFailed(c: ClientId)
    | Send(c: ClientId)
    | Serve(c: ClientId)          // the server acts on the request and answers
    | Fail(c: ClientId)           // the exchange fails without reaching the server's token state
    | GiveUp(c: ClientId)         // the client stops waiting before the server has acted
    | ServeAbandoned(t: Token)    // the server acts on a request nobody waits for
    | Receive(c: ClientId)
    | LoseReply(c: ClientId)      // the answer is lost or cannot be decoded
    | SaveOk(c: ClientId)
    | SaveFailed(c: ClientId)
    | Discard(c: ClientId)        // the client goes away, wherever it is

  predicate At(n: Net, c: ClientId, phase: Phase) {
    c in n.clients && n.clients[c].phase == phase
  }

  predicate Enabled(n: Net, s: Step) {
    match s
    case Start(c) => c !in n.clients
    case CachedReturn(c) => At(n, c, Idle)
    case Begin(c) => At(n, c, Idle)
    case LoadOk(c) => At(n, c, Loading)
    case LoadFailed(c) => At(n, c, Loading)
    case Send(c) => At(n, c, Ready)
    case Serve(c) => At(n, c, Sent)
    case Fail(c) => At(n, c, Ready) || At(n, c, Sent)
    case GiveUp(c) => At(n, c, Sent)
    case ServeAbandoned(t) => t in n.abandoned
    case Receive(c) => c in n.clients && n.clients[c].phase.Granted?
    case LoseReply(c) => c in n.clients && n.clients[c].phase.Granted?
    case SaveOk(c) => At(n, c, Saving)
    case SaveFailed(c) => At(n, c, Saving)
    case Discard(c) => c in n.clients
  }

  function Update(n: Net, c: ClientId, client: Client): Net {
    n.(clients := n.clients[c := client])
  }

  function Apply(n: Net, s: Step): Net
    requires Enabled(n, s)
  {
    match s
    case Start(c) => Update(n, c, Client(n.configured, false, Idle))
    case CachedReturn(_) => n
    case Begin(c) =>
      Update(n, c, n.clients[c].(phase := if n.clients[c].loadedFromStore then Ready else Loading))
    case LoadOk(c) =>
      var token := if n.row.Some? then n.row.value else n.clients[c].refreshToken;
      Update(n, c, Client(token, true, Ready))
    case LoadFailed(c) => Update(n, c, n.clients[c].(loadedFromStore := true, phase := Ready))
    case Send(c) => Update(n, c, n.clients[c].(phase := Sent))
    case Serve(c) =>
      if n.clients[c].refreshToken == n.current then
        Update(n, c, n.clients[c].(phase := Granted(n.current + 1))).(current := n.current + 1)
      else Update(n, c, n.clients[c].(phase := Idle))
    case Fail(c) => Update(n, c, n.clients[c].(phase := Idle))
    case GiveUp(c) =>
      Update(n, c, n.clients[c].(phase := Idle)).(abandoned := n.abandoned + {n.clients[c].refreshToken})
    case ServeAbandoned(t) => if t == n.current then n.(current := n.current + 1) else n
    case Receive(c) =>
      Update(n, c, n.clients[c].(refreshToken := n.clients[c].phase.issued, phase := Saving))
    case LoseReply(c) => Update(n, c, n.clients[c].(phase := Idle))
    case SaveOk(c) => Update(n, c, n.clients[c].(phase := Idle)).(row := Some(n.clients[c].refreshToken))
    case SaveFailed(c) => Update(n, c, n.clients[c].(phase := Idle))
    case Discard(c) =>
      n.(clients := n.clients - {c},
         abandoned := if n.clients[c].phase.Sent? then n.abandoned + {n.clients[c].refreshToken} else n.abandoned)
  }

  // ---- Runs ----

  predicate Possible(n: Net, steps: seq<Step>)
    decreases |steps|
  {
    steps == [] || (Enabled(n, steps[0]) && Possible(Apply(n, steps[0]), steps[1..]))
  }

  function Run(n: Net, steps: seq<Step>): Net
    requires Possible(n, steps)
    decreases |steps|
  {
    if steps == [] then n else Run(Apply(n, steps[0]), steps[1..])
  }

  lemma {:induction false} RunAppend(n: Net, first: seq<Step>, second: seq<Step>)
    requires Possible(n, first) && Possible(Run(n, first), second)
    ensures Possible(n, first + second) && Run(n, first + second) == Run(Run(n, first), second)
    decreases |first|
  {
    if first == [] {
      assert first + second == second;
    } else {
      assert (first + second)[0] == first[0] && (first + second)[1..] == first[1..] + second;
      RunAppend(Apply(n, first[0]), first[1..], second);
    }
  }

  /** Any start that does not know tokens from the future: the row and the configuration may both be stale. */
  predicate Initial(n: Net) {
    && n.clients == map[]
    && n.abandoned == {}
    && n.configured <= n.current
    && (n.row.Some? ==> n.row.value <= n.current)
  }

  // ---- Safety ----

  /** Between a successful exchange and its save. */
  predicate HoldsUnsaved(n: Net, c: ClientId) {
    c in n.clients && (n.clients[c].phase.Granted? || n.clients[c].phase.Saving?)
  }

  /** The newest token a client knows of. */
  function Newest(client: Client): Token {
    if client.phase.Granted? then client.phase.issued else client.refreshToken
  }

  ghost predicate NoFutureTokens(n: Net) {
    && n.configured <= n.current
    && (n.row.Some? ==> n.row.value <= n.current)
    && (forall t :: t in n.abandoned ==> t <= n.current)
    && (forall c :: c in n.clients ==> n.clients[c].refreshToken <= n.current)
  }

  /** Until it has tried the row, a client has only the configured token, and it tries the row before it exchanges. */
  ghost predicate LoadsFirst(n: Net) {
    forall c :: c in n.clients ==>
      if n.clients[c].loadedFromStore then !n.clients[c].phase.Loading?
      else n.clients[c].refreshToken == n.configured && (n.clients[c].phase.Idle? || n.clients[c].phase.Loading?)
  }

  /** The current token is known to c and to nobody and nothing else. */
  ghost predicate OnlyHolder(n: Net, c: ClientId)
    requires c in n.clients
  {
    && Newest(n.clients[c]) == n.current
    && (n.clients[c].phase.Granted? ==> n.clients[c].refreshToken < n.current)
    && n.configured < n.current
    && (n.row.Some? ==> n.row.value < n.current)
    && (forall t :: t in n.abandoned ==> t < n.current)
    && (forall d :: d in n.clients && d != c ==> Newest(n.clients[d]) < n.current)
  }

  ghost predicate UnsavedIsExclusive(n: Net) {
    forall c :: HoldsUnsaved(n, c) ==> OnlyHolder(n, c)
  }

  /** Unless the row or the configuration has the current token, at most one client knows it. */
  ghost predicate CurrentIsExclusive(n: Net) {
    !Shared(n) ==> forall c, d :: Knows(n, c) && Knows(n, d) ==> c == d
  }

  predicate Shared(n: Net) {
    n.row == Some(n.current) || n.configured == n.current
  }

  predicate Knows(n: Net, c: ClientId) {
    c in n.clients && Newest(n.clients[c]) == n.current
  }

  ghost predicate Invariant(n: Net) {
    NoFutureTokens(n) && LoadsFirst(n) && UnsavedIsExclusive(n) && CurrentIsExclusive(n)
  }

  lemma NobodyAheadOfServer(n: Net)
    requires Invariant(n)
    ensures forall d :: d in n.clients ==> Newest(n.clients[d]) <= n.current
  {
    forall d | d in n.clients
      ensures Newest(n.clients[d]) <= n.current
    {
      assert HoldsUnsaved(n, d) || !n.clients[d].phase.Granted?;
    }
  }

  lemma GrantIsExclusive(n: Net, c: ClientId)
    requires Invariant(n) && At(n, c, Sent) && n.clients[c].refreshToken == n.current
    ensures OnlyHolder(Apply(n, Serve(c)), c)
  {
    NobodyAheadOfServer(n);
  }

  lemma HolderStaysExclusive(n: Net, s: Step, c: ClientId)
    requires Invariant(n) && Enabled(n, s) && HoldsUnsaved(n, c) && HoldsUnsaved(Apply(n, s), c)
    ensures OnlyHolder(Apply(n, s), c)
  {
    assert OnlyHolder(n, c);
    assert !s.ServeAbandoned? ==> s.c != c ==> !HoldsUnsaved(n, s.c);
  }

  lemma StepKeepsExclusive(n: Net, s: Step, c: ClientId)
    requires Invariant(n) && Enabled(n, s) && HoldsUnsaved(Apply(n, s), c)
    ensures OnlyHolder(Apply(n, s), c)
  {
    if HoldsUnsaved(n, c) {
      HolderStaysExclusive(n, s, c);
    } else {
      assert s == Serve(c) && n.clients[c].refreshToken == n.current;
      GrantIsExclusive(n, c);
    }
  }

  lemma StepKeepsBounds(n: Net, s: Step)
    requires Invariant(n) && Enabled(n, s)
    ensures NoFutureTokens(Apply(n, s)) && LoadsFirst(Apply(n, s))
  {
    NobodyAheadOfServer(n);
  }

  lemma StepKeepsCurrentExclusive(n: Net, s: Step)
    requires Invariant(n) && Enabled(n, s)
    ensures CurrentIsExclusive(Apply(n, s))
  {
    var m := Apply(n, s);
    NobodyAheadOfServer(n);
    assert !s.ServeAbandoned? ==> HoldsUnsaved(n, s.c) ==> OnlyHolder(n, s.c);
    forall c, d | !Shared(m) && Knows(m, c) && Knows(m, d)
      ensures c == d
    {
      assert (Knows(n, c) && Knows(n, d)) || s == Serve(c) || s == Serve(d);
    }
  }

  lemma StepKeepsInvariant(n: Net, s: Step)
    requires Invariant(n) && Enabled(n, s)
    ensures Invariant(Apply(n, s))
  {
    StepKeepsBounds(n, s);
    StepKeepsCurrentExclusive(n, s);
    forall c | HoldsUnsaved(Apply(n, s), c)
      ensures OnlyHolder(Apply(n, s), c)
    {
      StepKeepsExclusive(n, s, c);
    }
  }

  lemma {:induction false} RunKeepsInvariant(n: Net, steps: seq<Step>)
    requires Invariant(n) && Possible(n, steps)
    ensures Invariant(Run(n, steps))
    decreases |steps|
  {
    if steps != [] {
      StepKeepsInvariant(n, steps[0]);
      RunKeepsInvariant(Apply(n, steps[0]), steps[1..]);
    }
  }

  /**
   * In every reachable state, whatever loads, saves, replies and clients were
   * lost on the way, at most one client is between a successful exchange and
   * its save; it alone knows the server's current token.
   */
  lemma AtMostOneUnsaved(start: Net, steps: seq<Step>, c: ClientId)
    requires Initial(start) && Possible(start, steps)
    requires HoldsUnsaved(Run(start, steps), c)
    ensures Newest(Run(start, steps).clients[c]) == Run(start, steps).current
    ensures !Shared(Run(start, steps))
    ensures forall d :: Knows(Run(start, steps), d) || HoldsUnsaved(Run(start, steps), d) ==> d == c
  {
    RunKeepsInvariant(start, steps);
  }

  /** The tokens written to the row over a run, in order. */
  function Saves(n: Net, steps: seq<Step>): seq<Token>
    requires Possible(n, steps)
    decreases |steps|
  {
    if steps == [] then []
    else (if steps[0].SaveOk? then [n.clients[steps[0].c].refreshToken] else [])
         + Saves(Apply(n, steps[0]), steps[1..])
  }

  ghost predicate StrictlyIncreasing(s: seq<Token>) {
    forall i, j :: 0 <= i < j < |s| ==> s[i] < s[j]
  }

  /** A list of saves that starts above the row and keeps rising, and where it leaves the row. */
  ghost predicate Raises(row: Option<Token>, saves: seq<Token>, final: Option<Token>) {
    && StrictlyIncreasing(saves)
    && (row.Some? ==> forall i :: 0 <= i < |saves| ==> row.value < saves[i])
    && final == if saves == [] then row else Some(saves[|saves| - 1])
  }

  lemma RaisesMore(row: Option<Token>, token: Token, saves: seq<Token>, final: Option<Token>)
    requires Raises(Some(token), saves, final) && (row.Some? ==> row.value < token)
    ensures Raises(row, [token] + saves, final)
  {
  }

  /** Saves happen in issue order: each one stores a strictly newer generation than the row held. */
  lemma {:induction false} SavesInIssueOrder(n: Net, steps: seq<Step>)
    requires Invariant(n) && Possible(n, steps)
    ensures Raises(n.row, Saves(n, steps), Run(n, steps).row)
    decreases |steps|
  {
    if steps != [] {
      var s, m := steps[0], Apply(n, steps[0]);
      StepKeepsInvariant(n, s);
      SaveRaisesRow(n, s);
      SavesInIssueOrder(m, steps[1..]);
      if s.SaveOk? {
        RaisesMore(n.row, n.clients[s.c].refreshToken, Saves(m, steps[1..]), Run(m, steps[1..]).row);
      } else {
        assert Saves(n, steps) == Saves(m, steps[1..]);
      }
    }
  }

  /** Only a save changes the row, and it raises it. */
  lemma SaveRaisesRow(n: Net, s: Step)
    requires Invariant(n) && Enabled(n, s)
    ensures s.SaveOk? ==> Apply(n, s).row == Some(n.clients[s.c].refreshToken)
    ensures s.SaveOk? && n.row.Some? ==> n.row.value < n.clients[s.c].refreshToken
    ensures !s.SaveOk? ==> Apply(n, s).row == n.row
  {
    if s.SaveOk? {
      assert HoldsUnsaved(n, s.c);
    }
  }

  /** So the stored generation never goes down. */
  lemma StoredNeverGoesDown(start: Net, before: seq<Step>, after: seq<Step>)
    requires Initial(start) && Possible(start, before) && Possible(Run(start, before), after)
    requires Run(start, before).row.Some?
    ensures Run(Run(start, before), after).row.Some?
    ensures Run(start, before).row.value <= Run(Run(start, before), after).row.value
  {
    RunKeepsInvariant(start, before);
    SavesInIssueOrder(Run(start, before), after);
  }

  // ---- Losing the token, and not losing it ----

  /** Somebody or something still has the token the server accepts. */
  ghost predicate Known(n: Net) {
    Shared(n) || exists c :: Knows(n, c)
  }

  /** The three events that lose it. */
  predicate Loses(n: Net, s: Step) {
    match s
    case LoseReply(_) => true
    case ServeAbandoned(t) => t == n.current
    case Discard(c) => Knows(n, c) && !Shared(n)
    case _ => false
  }

  predicate SomeLoss(n: Net, steps: seq<Step>)
    requires Possible(n, steps)
    decreases |steps|
  {
    steps != [] && (Loses(n, steps[0]) || SomeLoss(Apply(n, steps[0]), steps[1..]))
  }

  lemma {:induction false} LossAppend(n: Net, first: seq<Step>, second: seq<Step>)
    requires Possible(n, first) && Possible(Run(n, first), second) && Possible(n, first + second)
    ensures SomeLoss(n, first + second) <==> SomeLoss(n, first) || SomeLoss(Run(n, first), second)
    decreases |first|
  {
    if first == [] {
      assert first + second == second;
    } else {
      assert (first + second)[0] == first[0] && (first + second)[1..] == first[1..] + second;
      LossAppend(Apply(n, first[0]), first[1..], second);
    }
  }

  lemma LosingStepStrands(n: Net, s: Step)
    requires Invariant(n) && Enabled(n, s) && Loses(n, s)
    ensures !Known(Apply(n, s))
  {
    NobodyAheadOfServer(n);
    assert s.LoseReply? ==> HoldsUnsaved(n, s.c);
    assert s.Discard? ==> forall d :: Knows(n, d) ==> d == s.c;
    assert forall d :: Knows(Apply(n, s), d) ==> s.LoseReply? || Knows(n, d) || s.ServeAbandoned?;
  }

  lemma OtherStepKeepsKnown(n: Net, s: Step)
    requires Invariant(n) && Enabled(n, s) && !Loses(n, s) && Known(n)
    ensures Known(Apply(n, s))
  {
    var m := Apply(n, s);
    if s.SaveOk? {
      assert HoldsUnsaved(n, s.c);
      assert Shared(m);
    } else if s.Serve? && m.current != n.current {
      assert Knows(m, s.c);
    } else if !Shared(n) {
      var d :| Knows(n, d);
      assert Knows(m, d);
    }
  }

  lemma StrandedStaysStranded(n: Net, s: Step)
    requires Invariant(n) && Enabled(n, s) && !Known(n)
    ensures !Known(Apply(n, s)) && Apply(n, s).current == (if Loses(n, s) then n.current + 1 else n.current)
  {
    var m := Apply(n, s);
    NobodyAheadOfServer(n);
    assert !s.ServeAbandoned? ==> !Knows(n, s.c) && !HoldsUnsaved(n, s.c);
    assert forall d :: Knows(m, d) ==> Knows(n, d) || s.ServeAbandoned?;
  }

  /**
   * The only way to be locked out: at the end of a run nobody has the current
   * token if and only if nobody had it at the start, or a reply was lost, or
   * an abandoned request was served, or the one client that held the token
   * unsaved was discarded. Failed loads, failed saves and failed requests
   * never do it.
   */
  lemma {:induction false} StrandedIff(n: Net, steps: seq<Step>)
    requires Invariant(n) && Possible(n, steps)
    ensures !Known(Run(n, steps)) <==> !Known(n) || SomeLoss(n, steps)
    decreases |steps|
  {
    if steps != [] {
      var s := steps[0];
      StepKeepsInvariant(n, s);
      StrandedIff(Apply(n, s), steps[1..]);
      if !Known(n) {
        StrandedStaysStranded(n, s);
      } else if Loses(n, s) {
        LosingStepStrands(n, s);
      } else {
        OtherStepKeepsKnown(n, s);
      }
    }
  }

  /** How many exchanges succeed for a client that waits for the answer. */
  function Exchanges(n: Net, steps: seq<Step>): nat
    requires Possible(n, steps)
    decreases |steps|
  {
    if steps == [] then 0
    else
      var m := Apply(n, steps[0]);
      (if steps[0].Serve? && m.current > n.current then 1 else 0) + Exchanges(m, steps[1..])
  }

  lemma {:induction false} StrandedNeverExchanges(n: Net, steps: seq<Step>)
    requires Invariant(n) && Possible(n, steps) && !Known(n)
    ensures Exchanges(n, steps) == 0
    decreases |steps|
  {
    if steps != [] {
      StepKeepsInvariant(n, steps[0]);
      StrandedStaysStranded(n, steps[0]);
      StrandedNeverExchanges(Apply(n, steps[0]), steps[1..]);
    }
  }

  lemma FreshId(taken: set<ClientId>) returns (c: ClientId)
    ensures c !in taken && forall d :: d in taken ==> d < c
  {
    if taken == {} {
      c := 0;
    } else {
      var d :| d in taken;
      var rest := FreshId(taken - {d});
      assert forall e :: e in taken ==> e == d || e in taken - {d};
      c := if d < rest then rest else d + 1;
    }
  }

  /** The steps by which a client that knows the current token gets to exchange it. */
  function WayToExchange(client: Client, c: ClientId): seq<Step> {
    match client.phase
    case Idle => if client.loadedFromStore then [Begin(c), Send(c), Serve(c)]
                 else [Begin(c), LoadFailed(c), Send(c), Serve(c)]
    case Loading => [LoadFailed(c), Send(c), Serve(c)]
    case Ready => [Send(c), Serve(c)]
    case Sent => [Serve(c)]
    case Granted(_) => [Receive(c), SaveFailed(c), Begin(c), Send(c), Serve(c)]
    case Saving => [SaveFailed(c), Begin(c), Send(c), Serve(c)]
  }

  lemma {:induction false} KnowingClientCanExchange(n: Net, c: ClientId)
    requires Invariant(n) && Knows(n, c)
    ensures Possible(n, WayToExchange(n.clients[c], c))
    ensures Exchanges(n, WayToExchange(n.clients[c], c)) == 1
    decreases |WayToExchange(n.clients[c], c)|
  {
    var way := WayToExchange(n.clients[c], c);
    var m := Apply(n, way[0]);
    if n.clients[c].phase.Sent? {
      assert way[1..] == [];
    } else {
      assert n.clients[c].phase.Granted? ==> HoldsUnsaved(n, c);
      StepKeepsInvariant(n, way[0]);
      assert way[1..] == WayToExchange(m.clients[c], c);
      KnowingClientCanExchange(m, c);
    }
  }

  lemma Prepend(n: Net, s: Step, rest: seq<Step>)
    requires Enabled(n, s) && Possible(Apply(n, s), rest)
    ensures Possible(n, [s] + rest) && Exchanges(n, [s] + rest) >= Exchanges(Apply(n, s), rest)
  {
    assert ([s] + rest)[1..] == rest;
  }

  /** A new client gets to exchange a token that the row or the configuration has. */
  lemma FreshClientCanExchange(n: Net) returns (steps: seq<Step>)
    requires Invariant(n) && Shared(n)
    ensures Possible(n, steps) && Exchanges(n, steps) > 0
  {
    var c := FreshId(n.clients.Keys);
    var n1 := Apply(n, Start(c));
    StepKeepsInvariant(n, Start(c));
    if n.row == Some(n.current) {
      var n2 := Apply(n1, Begin(c));
      var n3 := Apply(n2, LoadOk(c));
      StepKeepsInvariant(n1, Begin(c));
      StepKeepsInvariant(n2, LoadOk(c));
      steps := WayToExchange(n3.clients[c], c);
      KnowingClientCanExchange(n3, c);
      Prepend(n2, LoadOk(c), steps);
      Prepend(n1, Begin(c), [LoadOk(c)] + steps);
      steps := [Begin(c)] + ([LoadOk(c)] + steps);
    } else {
      steps := WayToExchange(n1.clients[c], c);
      KnowingClientCanExchange(n1, c);
    }
    Prepend(n, Start(c), steps);
    steps := [Start(c)] + steps;
  }

  /** Being known is exactly being usable: some continuation exchanges if and only if the token is not lost. */
  lemma KnownIffSomeRunExchanges(n: Net)
    requires Invariant(n)
    ensures Known(n) <==> exists steps :: Possible(n, steps) && Exchanges(n, steps) > 0
  {
    if Shared(n) {
      var steps := FreshClientCanExchange(n);
    } else if exists c :: Knows(n, c) {
      var c :| Knows(n, c);
      KnowingClientCanExchange(n, c);
    } else {
      forall steps | Possible(n, steps)
        ensures Exchanges(n, steps) == 0
      {
        StrandedNeverExchanges(n, steps);
      }
    }
  }

  // ---- Runs that lose nothing ----

  /** Where the token should be when nobody is inside ensureAuth. */
  predicate Home(n: Net) {
    n.row == Some(n.current) || (n.row.None? && n.configured == n.current)
  }

  /** A stored token is never older than a configured one that still works. */
  predicate RowNotBehind(n: Net) {
    n.configured == n.current ==> Home(n)
  }

  predicate Healthy(n: Net) {
    Initial(n) && Home(n)
  }

  lemma {:induction false} RowStaysAhead(n: Net, steps: seq<Step>)
    requires Invariant(n) && Possible(n, steps) && RowNotBehind(n)
    ensures RowNotBehind(Run(n, steps))
    decreases |steps|
  {
    if steps != [] {
      StepKeepsInvariant(n, steps[0]);
      SaveRaisesRow(n, steps[0]);
      assert steps[0].SaveOk? ==> HoldsUnsaved(n, steps[0].c);
      RowStaysAhead(Apply(n, steps[0]), steps[1..]);
    }
  }

  /**
   * If no reply is lost and no client is discarded with the token unsaved,
   * the server's current token is always in the row (or the configuration
   * while the row is empty), or with exactly one live client.
   */
  lemma NothingLostNothingMissing(start: Net, steps: seq<Step>)
    requires Healthy(start) && Possible(start, steps) && !SomeLoss(start, steps)
    ensures Home(Run(start, steps))
         || exists c :: Knows(Run(start, steps), c) && forall d :: Knows(Run(start, steps), d) ==> d == c
  {
    RunKeepsInvariant(start, steps);
    StrandedIff(start, steps);
    RowStaysAhead(start, steps);
    var n := Run(start, steps);
    assert Known(n);
    if !Home(n) {
      assert !Shared(n);
      var c :| Knows(n, c);
      assert forall d :: Knows(n, d) ==> d == c;
    }
  }

  predicate AllSavesSucceed(steps: seq<Step>) {
    forall i :: 0 <= i < |steps| ==> !steps[i].SaveFailed?
  }

  lemma {:induction false} SavedOrAboutToBe(n: Net, steps: seq<Step>)
    requires Invariant(n) && Possible(n, steps) && !SomeLoss(n, steps) && AllSavesSucceed(steps)
    requires Home(n) || exists c :: HoldsUnsaved(n, c)
    ensures Home(Run(n, steps)) || exists c :: HoldsUnsaved(Run(n, steps), c)
    decreases |steps|
  {
    if steps != [] {
      var s, m := steps[0], Apply(n, steps[0]);
      StepKeepsInvariant(n, s);
      assert !s.SaveFailed?;
      if s.Serve? && m.current != n.current {
        assert HoldsUnsaved(m, s.c);
      } else if exists c :: HoldsUnsaved(n, c) {
        var c :| HoldsUnsaved(n, c);
        assert OnlyHolder(n, c) && Knows(n, c) && !Shared(n);
        assert s == SaveOk(c) || HoldsUnsaved(m, c);
      } else {
        assert s.SaveOk? ==> HoldsUnsaved(n, s.c);
        assert m.row == n.row && m.current == n.current && m.configured == n.configured;
      }
      SavedOrAboutToBe(m, steps[1..]);
    }
  }

  predicate NobodyInside(n: Net) {
    forall c :: c in n.clients ==> n.clients[c].phase.Idle?
  }

  /** If, besides, all saves succeed, the row and the server agree whenever no client is inside ensureAuth. */
  lemma RowAgreesWhenQuiet(start: Net, steps: seq<Step>)
    requires Healthy(start) && Possible(start, steps) && !SomeLoss(start, steps) && AllSavesSucceed(steps)
    requires NobodyInside(Run(start, steps))
    ensures Home(Run(start, steps))
  {
    SavedOrAboutToBe(start, steps);
  }

  /** The steps a client takes from a phase to the end of ensureAuth when everything works. */
  function Visit(phase: Phase, c: ClientId): seq<Step> {
    match phase
    case Idle => [Begin(c), LoadOk(c), Send(c), Serve(c), Receive(c), SaveOk(c)]
    case Loading => [LoadOk(c), Send(c), Serve(c), Receive(c), SaveOk(c)]
    case Ready => [Send(c), Serve(c), Receive(c), SaveOk(c)]
    case Sent => [Serve(c), Receive(c), SaveOk(c)]
    case Granted(_) => [Receive(c), SaveOk(c)]
    case Saving => [SaveOk(c)]
  }

  predicate OnItsWay(n: Net, c: ClientId) {
    c in n.clients &&
    if n.clients[c].phase.Idle? || n.clients[c].phase.Loading?
    then Home(n) && !n.clients[c].loadedFromStore && n.clients[c].refreshToken == n.configured
    else Knows(n, c)
  }

  lemma {:induction false} VisitCompletes(n: Net, c: ClientId)
    requires OnItsWay(n, c)
    ensures var unsaved := HoldsUnsaved(n, c);
            var way := Visit(n.clients[c].phase, c);
            && Possible(n, way)
            && Exchanges(n, way) == (if unsaved then 0 else 1)
            && Run(n, way).current == n.current + Exchanges(n, way)
            && Run(n, way).row == Some(Run(n, way).current)
            && At(Run(n, way), c, Idle)
    decreases |Visit(n.clients[c].phase, c)|
  {
    var way := Visit(n.clients[c].phase, c);
    var m := Apply(n, way[0]);
    if n.clients[c].phase.Saving? {
      assert way[1..] == [];
    } else {
      assert way[1..] == Visit(m.clients[c].phase, c);
      VisitCompletes(m, c);
    }
  }

  function LoneClient(c: ClientId): seq<Step> {
    [Start(c)] + Visit(Idle, c)
  }

  /** The next client that comes alone and can read the row gets its access token and stores its successor. */
  lemma NextLoneClientSucceeds(n: Net, c: ClientId)
    requires Home(n) && c !in n.clients
    ensures Possible(n, LoneClient(c)) && NoLoadFails(LoneClient(c))
    ensures Exchanges(n, LoneClient(c)) == 1
    ensures Run(n, LoneClient(c)).current == n.current + 1
    ensures Run(n, LoneClient(c)).row == Some(n.current + 1)
    ensures At(Run(n, LoneClient(c)), c, Idle)
  {
    assert LoneClient(c)[1..] == Visit(Idle, c);
    VisitCompletes(Apply(n, Start(c)), c);
  }

  // ---- Reconnecting with a fresh token ----

  predicate NoLoadFails(steps: seq<Step>) {
    forall i :: 0 <= i < |steps| ==> !steps[i].LoadFailed?
  }

  /** A client that has read the row, or failed to, and has nothing the server accepts; or one still to read it. */
  predicate Behind(n: Net, client: Client) {
    if client.loadedFromStore
    then client.refreshToken != n.current && (client.phase.Granted? ==> client.phase.issued != n.current)
    else client.phase.Idle? || client.phase.Loading?
  }

  /** The row is out of date, and nobody who has read it has anything better. */
  ghost predicate Shadowed(n: Net) {
    && n.row.Some? && n.row.value != n.current
    && (forall c :: c in n.clients ==> Behind(n, n.clients[c]))
    && n.current !in n.abandoned
  }

  lemma {:induction false} ShadowedNeverExchanges(n: Net, steps: seq<Step>)
    requires Shadowed(n) && Possible(n, steps) && NoLoadFails(steps)
    ensures Exchanges(n, steps) == 0
    decreases |steps|
  {
    if steps != [] {
      var s, m := steps[0], Apply(n, steps[0]);
      assert !s.LoadFailed?;
      assert !s.ServeAbandoned? && s.c in n.clients ==> Behind(n, n.clients[s.c]);
      assert Shadowed(m);
      ShadowedNeverExchanges(m, steps[1..]);
    }
  }

  /** The credentials have the token the server accepts; no live client and no travelling request got it elsewhere. */
  ghost predicate Reconnected(n: Net) {
    && n.configured == n.current && n.current !in n.abandoned
    && (forall c :: c in n.clients ==> Behind(n, n.clients[c]))
  }

  /** That is how it stands when the user configures a fresh token, whatever the old clients are doing. */
  lemma ReconnectAtAnyTime(n: Net, newest: Token)
    requires Invariant(n) && n.current < newest
    ensures Reconnected(n.(current := newest, configured := newest))
  {
    NobodyAheadOfServer(n);
  }

  /**
   * A user who reconnects with a token the server accepts gets through if and
   * only if the row is empty or happens to hold that very token; otherwise the
   * stored token shadows the new one in every run in which the row can be read.
   */
  lemma ReconnectWorksIff(n: Net)
    requires Reconnected(n)
    ensures (exists steps :: Possible(n, steps) && NoLoadFails(steps) && Exchanges(n, steps) > 0)
       <==> n.row.None? || n.row.value == n.current
  {
    if n.row.None? || n.row.value == n.current {
      var c := FreshId(n.clients.Keys);
      NextLoneClientSucceeds(n, c);
    } else {
      forall steps | Possible(n, steps) && NoLoadFails(steps)
        ensures Exchanges(n, steps) == 0
      {
        ShadowedNeverExchanges(n, steps);
      }
    }
  }
}
