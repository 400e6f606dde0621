/**
 * What an import request comes to in Gateway when nothing else runs: it agrees
 * with the import of the credential store.
 */
module LoneRequests {
  import opened Wrappers
  import opened Models
  import opened Credentials
  import opened Gateway

  function Serve(id: RequestId, body: Body, inputs: seq<Input>): seq<Event> {
    [Arrive(id, body)] + seq(|inputs|, i requires 0 <= i < |inputs| => Advance(id, inputs[i]))
  }

  /** The request under way, taking one step per input. */
  function Drive(g: Gateway, id: RequestId, inputs: seq<Input>): Gateway
    requires id in g.requests
    ensures id in Drive(g, id, inputs).requests
    decreases |inputs|
  {
    if inputs == [] then g else Drive(Step(g, id, inputs[0]), id, inputs[1..])
  }

  lemma {:induction false} AdvancesDrive(g: Gateway, id: RequestId, inputs: seq<Input>)
    requires id in g.requests
    ensures Run(g, seq(|inputs|, i requires 0 <= i < |inputs| => Advance(id, inputs[i]))) == Drive(g, id, inputs)
    decreases |inputs|
  {
    var events := seq(|inputs|, i requires 0 <= i < |inputs| => Advance(id, inputs[i]));
    if inputs != [] {
      var rest := seq(|inputs[1..]|, i requires 0 <= i < |inputs[1..]| => Advance(id, inputs[1..][i]));
      assert events == [Advance(id, inputs[0])] + rest;
      RunFirst(g, Advance(id, inputs[0]), rest);
      AdvancesDrive(Step(g, id, inputs[0]), id, inputs[1..]);
    }
  }

  lemma ServeDrives(g: Gateway, id: RequestId, body: Body, inputs: seq<Input>)
    requires id !in g.requests
    ensures Run(g, Serve(id, body, inputs)) == Drive(Apply(g, Arrive(id, body)), id, inputs)
  {
    var events := seq(|inputs|, i requires 0 <= i < |inputs| => Advance(id, inputs[i]));
    RunFirst(g, Arrive(id, body), events);
    AdvancesDrive(Apply(g, Arrive(id, body)), id, inputs);
  }

  lemma DriveOne(g: Gateway, id: RequestId, input: Input)
    requires id in g.requests
    ensures Drive(g, id, [input]) == Step(g, id, input)
  {
    assert [input][1..] == [];
  }

  lemma DriveFirst(g: Gateway, id: RequestId, input: Input, rest: seq<Input>)
    requires id in g.requests
    ensures Drive(g, id, [input] + rest) == Drive(Step(g, id, input), id, rest)
  {
    assert ([input] + rest)[1..] == rest;
  }

  lemma {:induction false} DriveSplit(g: Gateway, id: RequestId, first: seq<Input>, second: seq<Input>)
    requires id in g.requests
    ensures Drive(g, id, first + second) == Drive(Drive(g, id, first), id, second)
    decreases |first|
  {
    if first == [] {
      assert first + second == second;
    } else {
      assert (first + second)[1..] == first[1..] + second;
      DriveSplit(Step(g, id, first[0]), id, first[1..], second);
    }
  }

  // ---- Importing ----

  function TakeImportStep(g: Gateway, id: RequestId, input: Input): (m: Gateway)
    requires id in g.requests && g.requests[id].stage.Importing? && g.requests[id].stage.todo != []
    ensures id in m.requests && m.requests[id].stage.Importing?
    ensures m.requests[id].stage.todo == g.requests[id].stage.todo[1..]
  {
    var stage := g.requests[id].stage;
    ImportNext(g, id, stage.env, stage.already, stage.todo, stage.imported, input)
  }

  /** One step per broker. */
  function ImportRun(g: Gateway, id: RequestId, inputs: seq<Input>): Gateway
    requires id in g.requests && g.requests[id].stage.Importing? && |inputs| <= |g.requests[id].stage.todo|
    decreases |inputs|
  {
    if inputs == [] then g else ImportRun(TakeImportStep(g, id, inputs[0]), id, inputs[1..])
  }

  lemma {:induction false} ImportDrives(g: Gateway, id: RequestId, inputs: seq<Input>)
    requires id in g.requests && g.requests[id].stage.Importing? && |inputs| <= |g.requests[id].stage.todo|
    ensures Drive(g, id, inputs) == ImportRun(g, id, inputs)
    decreases |inputs|
  {
    if inputs != [] {
      var m := TakeImportStep(g, id, inputs[0]);
      assert Step(g, id, inputs[0]) == m;
      assert Drive(g, id, inputs) == Drive(m, id, inputs[1..]);
      ImportDrives(m, id, inputs[1..]);
    }
  }

  function ImportMany(into: Rows, rows: Rows, user: UserId, env: EnvConfig, failing: set<Broker>, todo: seq<Broker>): Rows
    decreases |todo|
  {
    if todo == [] then into
    else ImportMany(ImportOne(into, rows, user, env, failing, todo[0]), rows, user, env, failing, todo[1..])
  }

  function ImportedMany(rows: Rows, user: UserId, env: EnvConfig, failing: set<Broker>, todo: seq<Broker>): seq<Broker> {
    if todo == [] then [] else ImportedOne(rows, user, env, failing, todo[0]) + ImportedMany(rows, user, env, failing, todo[1..])
  }

  lemma KnownBrokersImported(rows: Rows, user: UserId, env: EnvConfig, failing: set<Broker>)
    ensures ImportMany(rows, rows, user, env, failing, KNOWN_BROKERS) == ImportRows(rows, user, env, failing)
    ensures ImportedMany(rows, user, env, failing, KNOWN_BROKERS) == ImportedList(rows, user, env, failing)
  {
    var last := ImportedOne(rows, user, env, failing, Questrade);
    var rows1 := ImportOne(rows, rows, user, env, failing, Alpaca);
    var rows2 := ImportOne(rows1, rows, user, env, failing, Oanda);
    assert KNOWN_BROKERS[1..] == [Oanda, Questrade] && [Oanda, Questrade][1..] == [Questrade] && [Questrade][1..] == [];
    assert ImportMany(rows2, rows, user, env, failing, [Questrade]) == ImportRows(rows, user, env, failing);
    assert ImportMany(rows1, rows, user, env, failing, [Oanda, Questrade]) == ImportRows(rows, user, env, failing);
    assert ImportedMany(rows, user, env, failing, [Questrade]) == last + [] == last;
    assert ImportedMany(rows, user, env, failing, [Oanda, Questrade]) == ImportedOne(rows, user, env, failing, Oanda) + last;
  }

  /** The rows and the list that the steps for the first brokers leave. */
  predicate Halfway(g: Gateway, id: RequestId, rows: Rows, env: EnvConfig, into: Rows, todo: seq<Broker>,
                    imported: seq<Broker>) {
    id in g.requests && g.credentials == into
    && g.requests[id].stage == Importing(env, ConnectedList(rows, id.user), todo, imported)
  }

  /** One import step deals with one broker as one import of the credential store does. */
  lemma ImportStep(g: Gateway, id: RequestId, rows: Rows, env: EnvConfig, todo: seq<Broker>, imported: seq<Broker>,
                   input: Input, failing: set<Broker>)
    requires todo != [] && (todo[0] in failing <==> !input.storeOk)
    requires Halfway(g, id, rows, env, g.credentials, todo, imported)
    ensures Halfway(TakeImportStep(g, id, input), id, rows, env,
                    ImportOne(g.credentials, rows, id.user, env, failing, todo[0]), todo[1..],
                    imported + ImportedOne(rows, id.user, env, failing, todo[0]))
  {
    ConnectedListIsConnected(rows, id.user);
    assert imported + [] == imported;
  }

  /** The inputs of the import steps, and the brokers whose save fails in them. */
  predicate SavesFail(todo: seq<Broker>, inputs: seq<Input>, failing: set<Broker>) {
    |inputs| == |todo| && forall i :: 0 <= i < |todo| ==> (todo[i] in failing <==> !inputs[i].storeOk)
  }

  lemma RestFails(todo: seq<Broker>, inputs: seq<Input>, failing: set<Broker>)
    requires SavesFail(todo, inputs, failing) && todo != []
    ensures SavesFail(todo[1..], inputs[1..], failing)
  {
  }

  lemma {:induction false} ImportSteps(g: Gateway, id: RequestId, rows: Rows, env: EnvConfig, todo: seq<Broker>,
                                       imported: seq<Broker>, inputs: seq<Input>, failing: set<Broker>)
    requires SavesFail(todo, inputs, failing)
    requires Halfway(g, id, rows, env, g.credentials, todo, imported)
    ensures Halfway(ImportRun(g, id, inputs), id, rows, env, ImportMany(g.credentials, rows, id.user, env, failing, todo), [],
                    imported + ImportedMany(rows, id.user, env, failing, todo))
    decreases |todo|
  {
    if todo == [] {
      assert imported + [] == imported;
    } else {
      var first, rest := ImportedOne(rows, id.user, env, failing, todo[0]), ImportedMany(rows, id.user, env, failing, todo[1..]);
      var m, into := TakeImportStep(g, id, inputs[0]), ImportOne(g.credentials, rows, id.user, env, failing, todo[0]);
      ImportStep(g, id, rows, env, todo, imported, inputs[0], failing);
      RestFails(todo, inputs, failing);
      ImportSteps(m, id, rows, env, todo[1..], imported + first, inputs[1..], failing);
      Regroup(imported, first, rest);
      assert ImportMany(g.credentials, rows, id.user, env, failing, todo)
          == ImportMany(into, rows, id.user, env, failing, todo[1..]);
      assert ImportRun(g, id, inputs) == ImportRun(m, id, inputs[1..]);
    }
  }

  lemma Regroup(a: seq<Broker>, b: seq<Broker>, c: seq<Broker>)
    ensures (a + b) + c == a + (b + c)
  {
  }

  lemma LastImportStep(g: Gateway, id: RequestId, input: Input)
    requires id in g.requests && g.requests[id].stage.Importing? && g.requests[id].stage.todo == []
    ensures Step(g, id, input) == Finish(g, id, Imported(g.requests[id].stage.imported))
  {
  }

  /** From the state that the listing of connected brokers leaves to the reply. */
  lemma ListedImport(g: Gateway, id: RequestId, env: EnvConfig, saves: seq<Input>, last: Input, failing: set<Broker>)
    requires Halfway(g, id, g.credentials, env, g.credentials, KNOWN_BROKERS, [])
    requires SavesFail(KNOWN_BROKERS, saves, failing)
    ensures var m := Drive(g, id, saves + [last]);
            && m.credentials == ImportRows(g.credentials, id.user, env, failing)
            && StageOf(m, id) == Some(Done(Imported(ImportedList(g.credentials, id.user, env, failing))))
  {
    var list := ImportedList(g.credentials, id.user, env, failing);
    ImportSteps(g, id, g.credentials, env, KNOWN_BROKERS, [], saves, failing);
    KnownBrokersImported(g.credentials, id.user, env, failing);
    assert [] + list == list;
    ImportDrives(g, id, saves);
    DriveSplit(g, id, saves, [last]);
    var m := ImportRun(g, id, saves);
    DriveOne(m, id, last);
    LastImportStep(m, id, last);
  }

  /**
   * An import request that runs alone leaves the rows and reports the brokers
   * that one import of the credential store does, whichever saves fail.
   */
  lemma LoneImport(g: Gateway, id: RequestId, env: EnvConfig, list: Input, saves: seq<Input>, last: Input,
                   failing: set<Broker>)
    requires id !in g.requests && list.storeOk
    requires SavesFail(KNOWN_BROKERS, saves, failing)
    ensures var m := Run(g, Serve(id, ImportCredentials(env), [list] + (saves + [last])));
            && m.credentials == ImportRows(g.credentials, id.user, env, failing)
            && StageOf(m, id) == Some(Done(Imported(ImportedList(g.credentials, id.user, env, failing))))
  {
    var g0 := Apply(g, Arrive(id, ImportCredentials(env)));
    ServeDrives(g, id, ImportCredentials(env), [list] + (saves + [last]));
    DriveFirst(g0, id, list, saves + [last]);
    ListImport(g0, id, env, list);
    ListedImport(Step(g0, id, list), id, env, saves, last, failing);
  }

  lemma ListImport(g: Gateway, id: RequestId, env: EnvConfig, list: Input)
    requires id in g.requests && g.requests[id] == Request(ImportCredentials(env), Received) && list.storeOk
    ensures Halfway(Step(g, id, list), id, g.credentials, env, g.credentials, KNOWN_BROKERS, [])
  {
  }
}
