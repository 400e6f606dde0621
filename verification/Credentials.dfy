/**
 * Each user's broker credentials (internal/db/broker_credentials.go), who may
 * be connected to what, and the import of the gateway's own legacy credentials
 * (internal/httpapi/credential_handlers.go lines 94-158).
 */
module Credentials {
  import opened Wrappers
  import opened Models

  type Secrets = map<string, string>

  /** One row per user and broker. */
  type Rows = map<(UserId, Broker), Secrets>

  /** The known brokers, in the order of their names. */
  const KNOWN_BROKERS: seq<Broker> := [Alpaca, Oanda, Questrade]

  function Name(broker: Broker): string {
    match broker
    case Alpaca => "alpaca"
    case Oanda => "oanda"
    case Questrade => "questrade"
  }

  /** The known broker with this name, if there is one. */
  function ParseBroker(name: string): (r: Option<Broker>)
    ensures forall b: Broker :: r == Some(b) <==> Name(b) == name
  {
    assert Name(Alpaca)[0] == 'a' && Name(Oanda)[0] == 'o' && Name(Questrade)[0] == 'q';
    if name == "alpaca" then Some(Alpaca)
    else if name == "oanda" then Some(Oanda)
    else if name == "questrade" then Some(Questrade)
    else None
  }

  function Connected(rows: Rows, user: UserId): set<Broker> {
    set b: Broker | (user, b) in rows
  }

  /** The connected brokers, ordered by name. */
  function ConnectedList(rows: Rows, user: UserId): seq<Broker> {
    (if (user, Alpaca) in rows then [Alpaca] else [])
    + (if (user, Oanda) in rows then [Oanda] else [])
    + (if (user, Questrade) in rows then [Questrade] else [])
  }

  lemma ConnectedListIsConnected(rows: Rows, user: UserId)
    ensures forall b :: b in ConnectedList(rows, user) <==> b in Connected(rows, user)
  {
    forall b: Broker
      ensures b in ConnectedList(rows, user) <==> b in Connected(rows, user)
    {
      var alpaca, oanda := if (user, Alpaca) in rows then [Alpaca] else [], if (user, Oanda) in rows then [Oanda] else [];
      var questrade := if (user, Questrade) in rows then [Questrade] else [];
      assert b in ConnectedList(rows, user) <==> b in alpaca || b in oanda || b in questrade;
      assert b == Alpaca || b == Oanda || b == Questrade;
    }
  }

  /** The names rise, so no broker occurs twice; the first letters of the three names differ. */
  predicate NameOrdered(brokers: seq<Broker>) {
    forall i, j :: 0 <= i < j < |brokers| ==> Name(brokers[i])[0] < Name(brokers[j])[0]
  }

  lemma InNameOrder(a: seq<Broker>, o: seq<Broker>, q: seq<Broker>)
    requires (a == [] || a == [Alpaca]) && (o == [] || o == [Oanda]) && (q == [] || q == [Questrade])
    ensures NameOrdered(a + o + q)
  {
    assert Name(Alpaca)[0] == 'a' && Name(Oanda)[0] == 'o' && Name(Questrade)[0] == 'q';
  }

  class CredentialStore {
    var rows: Rows

    method Save(user: UserId, broker: Broker, secrets: Secrets, ok: bool) returns (saved: bool)
      modifies this
      ensures saved == ok
      ensures rows == if ok then old(rows)[(user, broker) := secrets] else old(rows)
    {
      if ok {
        rows := rows[(user, broker) := secrets];
      }
      saved := ok;
    }

    /** Deleting a broker that is not connected, or not known, succeeds and changes nothing. */
    method Delete(user: UserId, name: string, ok: bool) returns (deleted: bool)
      modifies this
      ensures deleted == ok
      ensures rows == if ok && ParseBroker(name).Some? then old(rows) - {(user, ParseBroker(name).value)} else old(rows)
    {
      var broker := ParseBroker(name);
      if ok && broker.Some? {
        rows := rows - {(user, broker.value)};
      }
      deleted := ok;
    }

    method Load(user: UserId, broker: Broker, ok: bool) returns (r: Result<Option<Secrets>, string>)
      ensures r == if !ok then Failure("db: load credentials")
                   else Success(if (user, broker) in rows then Some(rows[(user, broker)]) else None)
    {
      if !ok {
        return Failure("db: load credentials");
      }
      if (user, broker) !in rows {
        return Success(None);
      }
      return Success(Some(rows[(user, broker)]));
    }

    method ListConnectedBrokers(user: UserId, ok: bool) returns (r: Result<seq<Broker>, string>)
      ensures r == if ok then Success(ConnectedList(rows, user)) else Failure("db: list connected brokers")
      ensures ok ==> NameOrdered(r.value) && forall b: Broker :: b in r.value <==> (user, b) in rows
    {
      ConnectedListIsConnected(rows, user);
      InNameOrder(if (user, Alpaca) in rows then [Alpaca] else [], if (user, Oanda) in rows then [Oanda] else [],
                  if (user, Questrade) in rows then [Questrade] else []);
      if !ok {
        return Failure("db: list connected brokers");
      }
      var brokers := [];
      for i := 0 to |KNOWN_BROKERS|
        invariant i == 0 ==> brokers == []
        invariant i == 1 ==> brokers == (if (user, Alpaca) in rows then [Alpaca] else [])
        invariant i == 2 ==> brokers == (if (user, Alpaca) in rows then [Alpaca] else [])
                                       + (if (user, Oanda) in rows then [Oanda] else [])
        invariant i == 3 ==> brokers == ConnectedList(rows, user)
      {
        if (user, KNOWN_BROKERS[i]) in rows {
          brokers := brokers + [KNOWN_BROKERS[i]];
        }
      }
      return Success(brokers);
    }

    method ImportAlpaca(user: UserId, env: EnvConfig, already: set<Broker>, failing: set<Broker>, imported: seq<Broker>,
                  ghost existing: Rows)
      returns (r: seq<Broker>)
      requires Alpaca in already <==> (user, Alpaca) in existing
      modifies this
      ensures rows == ImportOne(old(rows), existing, user, env, failing, Alpaca)
      ensures r == imported + ImportedOne(existing, user, env, failing, Alpaca)
    {
      r := imported;
      if Alpaca !in already && env.alpacaKeyId != "" && env.alpacaSecret != "" {
        var saved := Save(user, Alpaca,
                          map["api_key_id" := env.alpacaKeyId, "secret_key" := env.alpacaSecret,
                              "base_url" := env.alpacaBaseUrl, "data_url" := env.alpacaDataUrl], Alpaca !in failing);
        if saved {
          r := r + [Alpaca];
        }
      }
    }

    method ImportOanda(user: UserId, env: EnvConfig, already: set<Broker>, failing: set<Broker>, imported: seq<Broker>,
                  ghost existing: Rows)
      returns (r: seq<Broker>)
      requires Oanda in already <==> (user, Oanda) in existing
      modifies this
      ensures rows == ImportOne(old(rows), existing, user, env, failing, Oanda)
      ensures r == imported + ImportedOne(existing, user, env, failing, Oanda)
    {
      r := imported;
      if Oanda !in already && env.oandaAccountId != "" && env.oandaToken != "" {
        var saved := Save(user, Oanda,
                          map["account_id" := env.oandaAccountId, "access_token" := env.oandaToken,
                              "base_url" := env.oandaBaseUrl], Oanda !in failing);
        if saved {
          r := r + [Oanda];
        }
      }
    }

    method ImportQuestrade(user: UserId, env: EnvConfig, already: set<Broker>, failing: set<Broker>, imported: seq<Broker>,
                  ghost existing: Rows)
      returns (r: seq<Broker>)
      requires Questrade in already <==> (user, Questrade) in existing
      modifies this
      ensures rows == ImportOne(old(rows), existing, user, env, failing, Questrade)
      ensures r == imported + ImportedOne(existing, user, env, failing, Questrade)
    {
      r := imported;
      if Questrade !in already && env.questradeToken != "" {
        var saved := Save(user, Questrade,
                          map["refresh_token" := env.questradeToken, "auth_url" := env.questradeAuthUrl], Questrade !in failing);
        if saved {
          r := r + [Questrade];
        }
      }
    }

    /** `failing` are the brokers whose save fails this time. */
    method ImportEnv(user: UserId, env: EnvConfig, listOk: bool, failing: set<Broker>)
      returns (r: Result<seq<Broker>, string>)
      modifies this
      ensures !listOk ==> r.Failure? && rows == old(rows)
      ensures listOk ==> r == Success(ImportedList(old(rows), user, env, failing))
                         && rows == ImportRows(old(rows), user, env, failing)
      ensures listOk ==> forall b: Broker :: b in r.value <==> (user, b) !in old(rows) && (user, b) in rows
    {
      ReportIsWhatIsNew(rows, user, env, failing);
      ghost var existing := rows;
      var connected := ListConnectedBrokers(user, listOk);
      if connected.Failure? {
        return Failure(connected.error);
      }
      ConnectedListIsConnected(rows, user);
      var already := set b | b in connected.value;
      var imported := ImportAlpaca(user, env, already, failing, [], existing);
      assert imported == ImportedOne(existing, user, env, failing, Alpaca);
      imported := ImportOanda(user, env, already, failing, imported, existing);
      imported := ImportQuestrade(user, env, already, failing, imported, existing);
      return Success(imported);
    }
  }

  // ---- Importing the gateway's own credentials ----

  datatype EnvConfig = EnvConfig(
    alpacaKeyId: string, alpacaSecret: string, alpacaBaseUrl: string, alpacaDataUrl: string,
    oandaAccountId: string, oandaToken: string, oandaBaseUrl: string,
    questradeToken: string, questradeAuthUrl: string)

  /** What the environment provides for a broker, if anything usable. */
  function EnvSecrets(env: EnvConfig, broker: Broker): Option<Secrets> {
    match broker
    case Alpaca =>
      if env.alpacaKeyId == "" || env.alpacaSecret == "" then None
      else Some(map["api_key_id" := env.alpacaKeyId, "secret_key" := env.alpacaSecret,
                    "base_url" := env.alpacaBaseUrl, "data_url" := env.alpacaDataUrl])
    case Oanda =>
      if env.oandaAccountId == "" || env.oandaToken == "" then None
      else Some(map["account_id" := env.oandaAccountId, "access_token" := env.oandaToken,
                    "base_url" := env.oandaBaseUrl])
    case Questrade =>
      if env.questradeToken == "" then None
      else Some(map["refresh_token" := env.questradeToken, "auth_url" := env.questradeAuthUrl])
  }

  predicate Imports(rows: Rows, user: UserId, env: EnvConfig, failing: set<Broker>, b: Broker) {
    (user, b) !in rows && EnvSecrets(env, b).Some? && b !in failing
  }

  function ImportOne(into: Rows, rows: Rows, user: UserId, env: EnvConfig, failing: set<Broker>, b: Broker): Rows {
    if Imports(rows, user, env, failing, b) then into[(user, b) := EnvSecrets(env, b).value] else into
  }

  function ImportRows(rows: Rows, user: UserId, env: EnvConfig, failing: set<Broker>): Rows {
    var rows1 := ImportOne(rows, rows, user, env, failing, Alpaca);
    var rows2 := ImportOne(rows1, rows, user, env, failing, Oanda);
    ImportOne(rows2, rows, user, env, failing, Questrade)
  }

  /** The rows after an import: the old ones untouched, plus the imported ones. */
  lemma ImportRowsAt(rows: Rows, user: UserId, env: EnvConfig, failing: set<Broker>, key: (UserId, Broker))
    ensures var after := ImportRows(rows, user, env, failing);
            && (key in rows ==> key in after && after[key] == rows[key])
            && (key !in rows ==> (key in after <==> key.0 == user && Imports(rows, user, env, failing, key.1)))
            && (key !in rows && key in after ==> EnvSecrets(env, key.1) == Some(after[key]))
  {
    assert key == (key.0, key.1);
    assert key.1 == Alpaca || key.1 == Oanda || key.1 == Questrade;
  }

  function ImportedOne(rows: Rows, user: UserId, env: EnvConfig, failing: set<Broker>, b: Broker): seq<Broker> {
    if Imports(rows, user, env, failing, b) then [b] else []
  }

  function ImportedList(rows: Rows, user: UserId, env: EnvConfig, failing: set<Broker>): seq<Broker> {
    ImportedOne(rows, user, env, failing, Alpaca) + ImportedOne(rows, user, env, failing, Oanda)
    + ImportedOne(rows, user, env, failing, Questrade)
  }

  /**
   * What an import connects, setting by setting: a broker that was not
   * connected is, exactly if its required settings are there and its save
   * succeeds, and each setting is under the key where its client looks for it.
   */
  lemma ImportStores(rows: Rows, user: UserId, env: EnvConfig, failing: set<Broker>)
    ensures var after := ImportRows(rows, user, env, failing);
            && ((user, Alpaca) !in rows ==>
                  && ((user, Alpaca) in after <==> env.alpacaKeyId != "" && env.alpacaSecret != "" && Alpaca !in failing)
                  && ((user, Alpaca) in after ==>
                        var stored := after[(user, Alpaca)];
                        && stored.Keys == {"api_key_id", "secret_key", "base_url", "data_url"}
                        && stored["api_key_id"] == env.alpacaKeyId && stored["secret_key"] == env.alpacaSecret
                        && stored["base_url"] == env.alpacaBaseUrl && stored["data_url"] == env.alpacaDataUrl))
            && ((user, Oanda) !in rows ==>
                  && ((user, Oanda) in after <==> env.oandaAccountId != "" && env.oandaToken != "" && Oanda !in failing)
                  && ((user, Oanda) in after ==>
                        var stored := after[(user, Oanda)];
                        && stored.Keys == {"account_id", "access_token", "base_url"}
                        && stored["account_id"] == env.oandaAccountId && stored["access_token"] == env.oandaToken
                        && stored["base_url"] == env.oandaBaseUrl))
            && ((user, Questrade) !in rows ==>
                  && ((user, Questrade) in after <==> env.questradeToken != "" && Questrade !in failing)
                  && ((user, Questrade) in after ==>
                        var stored := after[(user, Questrade)];
                        && stored.Keys == {"refresh_token", "auth_url"}
                        && stored["refresh_token"] == env.questradeToken && stored["auth_url"] == env.questradeAuthUrl))
  {
    ImportRowsAt(rows, user, env, failing, (user, Alpaca));
    ImportRowsAt(rows, user, env, failing, (user, Oanda));
    ImportRowsAt(rows, user, env, failing, (user, Questrade));
  }

  /** The import reports exactly the brokers it has newly connected, each once and in name order. */
  lemma ReportIsWhatIsNew(rows: Rows, user: UserId, env: EnvConfig, failing: set<Broker>)
    ensures var list, after := ImportedList(rows, user, env, failing), ImportRows(rows, user, env, failing);
            && (forall b: Broker :: b in list <==> (user, b) !in rows && (user, b) in after)
            && NameOrdered(list)
  {
    var list := ImportedList(rows, user, env, failing);
    InNameOrder(ImportedOne(rows, user, env, failing, Alpaca), ImportedOne(rows, user, env, failing, Oanda),
                ImportedOne(rows, user, env, failing, Questrade));
    forall b: Broker
      ensures b in list <==> (user, b) !in rows && (user, b) in ImportRows(rows, user, env, failing)
    {
      ImportRowsAt(rows, user, env, failing, (user, b));
      assert b == Alpaca || b == Oanda || b == Questrade;
      assert b in list <==> b in ImportedOne(rows, user, env, failing, Alpaca)
                            || b in ImportedOne(rows, user, env, failing, Oanda)
                            || b in ImportedOne(rows, user, env, failing, Questrade);
    }
  }

  /** One import after another, each with its own failing saves. */
  function ImportAll(rows: Rows, user: UserId, env: EnvConfig, failures: seq<set<Broker>>): Rows
    decreases |failures|
  {
    if failures == [] then rows
    else ImportAll(ImportRows(rows, user, env, failures[0]), user, env, failures[1..])
  }

  /**
   * However often the import runs and whatever saves fail: a row that was
   * there stays as it was, every user's and every broker's; and a new row
   * appears exactly for each unconnected broker that is configured and whose
   * save succeeded at least once, holding the configured secrets.
   */
  lemma {:induction false} RepeatedImports(rows: Rows, user: UserId, env: EnvConfig,
                                           failures: seq<set<Broker>>, key: (UserId, Broker))
    ensures var final := ImportAll(rows, user, env, failures);
            && (key in rows ==> key in final && final[key] == rows[key])
            && (key !in rows ==>
                  (key in final <==> key.0 == user && EnvSecrets(env, key.1).Some?
                                     && exists i :: 0 <= i < |failures| && key.1 !in failures[i]))
            && (key !in rows && key in final ==> EnvSecrets(env, key.1) == Some(final[key]))
    decreases |failures|
  {
    if failures != [] {
      ImportRowsAt(rows, user, env, failures[0], key);
      RepeatedImports(ImportRows(rows, user, env, failures[0]), user, env, failures[1..], key);
      SomeTail(failures, key.1);
    }
  }

  lemma SomeTail(failures: seq<set<Broker>>, b: Broker)
    requires failures != []
    ensures (exists i :: 0 <= i < |failures| && b !in failures[i])
       <==> b !in failures[0] || exists i :: 0 <= i < |failures[1..]| && b !in failures[1..][i]
  {
    if i :| 0 <= i < |failures| && b !in failures[i] {
      assert i > 0 ==> b !in failures[1..][i - 1];
    }
    if i :| 0 <= i < |failures[1..]| && b !in failures[1..][i] {
      assert b !in failures[i + 1];
    }
  }

  predicate AllConfiguredStored(rows: Rows, user: UserId, env: EnvConfig) {
    forall b: Broker :: EnvSecrets(env, b).Some? ==> (user, b) in rows
  }

  /** Every import does nothing and reports nothing, whatever fails, exactly once every configured broker is stored. */
  lemma ImportIsNoOpIff(rows: Rows, user: UserId, env: EnvConfig)
    ensures (forall failing: set<Broker> :: ImportRows(rows, user, env, failing) == rows
                                            && ImportedList(rows, user, env, failing) == [])
       <==> AllConfiguredStored(rows, user, env)
  {
    if AllConfiguredStored(rows, user, env) {
      forall failing: set<Broker>
        ensures ImportRows(rows, user, env, failing) == rows && ImportedList(rows, user, env, failing) == []
      {
        assert forall b :: !Imports(rows, user, env, failing, b);
      }
    } else {
      var b: Broker :| EnvSecrets(env, b).Some? && (user, b) !in rows;
      ImportRowsAt(rows, user, env, {}, (user, b));
    }
  }

  /** One import in which every save succeeds is enough to get there, after any history. */
  lemma CleanImportSettles(rows: Rows, user: UserId, env: EnvConfig, history: seq<set<Broker>>)
    ensures AllConfiguredStored(ImportRows(ImportAll(rows, user, env, history), user, env, {}), user, env)
  {
    var before := ImportAll(rows, user, env, history);
    forall b: Broker | EnvSecrets(env, b).Some?
      ensures (user, b) in ImportRows(before, user, env, {})
    {
      ImportRowsAt(before, user, env, {}, (user, b));
    }
  }
}
