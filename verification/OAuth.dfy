/**
 The OAuth store: client and token tables kept in memory, written ahead to a
 JSON-lines journal, and the one-time authorization codes that are never written.
 */
module OAuth {
  import opened Wrappers
  import opened Jsonl

  const PUBLIC_CLIENT_ID := "slopd-mcp"

  datatype Client = Client(redirectUris: seq<string>)

  datatype Access = Access(binding: string, resource: Option<string>)

  datatype AuthCode = AuthCode(clientId: string, redirectUri: string, challenge: string,
                               resource: Option<string>, expires: nat)

  datatype Event =
    | Version(version: nat)
    | ClientRegistered(clientId: string, client: Client)
    | TokenIssued(token: string, access: Access)

  datatype Tables = Tables(clients: map<string, Client>, tokens: map<string, Access>)

  const BASE := Tables(map[PUBLIC_CLIENT_ID := Client([])], map[])

  function Apply(tables: Tables, event: Event): Tables {
    match event
    case Version(_) => tables
    case ClientRegistered(id, client) => tables.(clients := tables.clients[id := client])
    case TokenIssued(token, access) => tables.(tokens := tables.tokens[token := access])
  }

  /** The tables that replaying a log builds. */
  function Fold(log: seq<Event>): Tables {
    if log == [] then BASE else Apply(Fold(log[..|log| - 1]), log[|log| - 1])
  }

  /** A token is honoured for the password it was issued under and the resource it was issued for, if any. */
  predicate Honoured(tokens: map<string, Access>, binding: string, token: string, resource: string) {
    token in tokens && tokens[token].binding == binding
    && (tokens[token].resource.Some? ==> tokens[token].resource.value == resource)
  }

  datatype TokenForm = TokenForm(grantType: string, code: string, redirectUri: string, clientId: string,
                                 verifier: string, resource: string)

  /** What the token endpoint demands of a redeemed code (section 4.1.3 of RFC 6749, section 4.6 of RFC 7636). */
  predicate Grants(challengeOf: string -> string, issued: AuthCode, form: TokenForm) {
    && issued.clientId == form.clientId
    && issued.redirectUri == form.redirectUri
    && (issued.resource.Some? ==> issued.resource.value == form.resource)
    && challengeOf(form.verifier) == issued.challenge
  }

  /** How writing an event ended: an append that fails writes nothing, a sync that fails leaves it unacknowledged. */
  datatype Outcome = Durable | AppendFails | SyncFails

  // ---- the store, changed in place ----

  class OAuthStore {
    var clients: map<string, Client>
    var codes: map<string, AuthCode>
    var tokens: map<string, Access>
    const binding: string
    const file: JournalFile<Event>

    ghost predicate Valid()
      reads this, file
    {
      file.Valid()
    }

    constructor (file: JournalFile<Event>, tables: Tables, binding: string)
      requires file.Valid()
      ensures Valid() && this.file == file && this.binding == binding
      ensures clients == tables.clients && tokens == tables.tokens && codes == map[]
    {
      this.file := file;
      this.binding := binding;
      clients := tables.clients;
      tokens := tables.tokens;
      codes := map[];
    }

    /** Repairs and replays the journal; a new one starts with its version. */
    static method Open(file: JournalFile<Event>, binding: string) returns (store: Option<OAuthStore>)
      requires file.Valid()
      modifies file
      ensures file.Valid()
      ensures
        var repaired := Repaired(file.fmt, old(file.bytes));
        && (store.Some? <==> Replay(file.fmt, repaired).Success?)
        && file.bytes == (if store.Some? && repaired == [] then Line(file.fmt, Version(1)) else repaired)
        && (store.Some? ==>
              && fresh(store.value) && store.value.Valid()
              && store.value.file == file && store.value.binding == binding
              && Tables(store.value.clients, store.value.tokens) == Fold(Replay(file.fmt, repaired).value)
              && store.value.codes == map[]
              && file.synced == if repaired == [] || |repaired| < old(file.synced) then |file.bytes| else old(file.synced))
    {
      file.Repair();
      var records := file.ReplayAll();
      if records.Failure? {
        return None;
      }
      var tables := BASE;
      var log := records.value;
      var i := 0;
      while i < |log|
        invariant 0 <= i <= |log|
        invariant tables == Fold(log[..i])
      {
        assert log[..i + 1][..i] == log[..i];
        match log[i] {
          case Version(_) =>
          case ClientRegistered(id, client) => tables := Tables(tables.clients[id := client], tables.tokens);
          case TokenIssued(token, access) => tables := Tables(tables.clients, tables.tokens[token := access]);
        }
        i := i + 1;
      }
      assert log[..i] == log;
      if file.bytes == [] {
        file.Append(Version(1));
        file.Sync();
      }
      var built := new OAuthStore(file, tables, binding);
      return Some(built);
    }

    /** Writes ahead; `ok` once the event is on disk. */
    method Persist(event: Event, outcome: Outcome) returns (ok: bool)
      requires Valid()
      modifies file
      ensures Valid() && ok == (outcome == Durable)
      ensures file.bytes == if outcome == AppendFails then old(file.bytes) else old(file.bytes) + Line(file.fmt, event)
      ensures file.synced == if ok then |file.bytes| else old(file.synced)
    {
      if outcome == AppendFails {
        return false;
      }
      file.Append(event);
      if outcome == SyncFails {
        return false;
      }
      file.Sync();
      return true;
    }

    method Register(id: string, redirectUris: seq<string>, outcome: Outcome) returns (ok: bool)
      requires Valid()
      modifies this`clients, file
      ensures Valid() && ok == (outcome == Durable)
      ensures clients == if ok then old(clients)[id := Client(redirectUris)] else old(clients)
      ensures file.bytes == if outcome == AppendFails then old(file.bytes)
                            else old(file.bytes) + Line(file.fmt, ClientRegistered(id, Client(redirectUris)))
      ensures file.synced == if ok then |file.bytes| else old(file.synced)
    {
      ok := Persist(ClientRegistered(id, Client(redirectUris)), outcome);
      if ok {
        clients := clients[id := Client(redirectUris)];
      }
    }

    method PutToken(token: string, resource: Option<string>, outcome: Outcome) returns (ok: bool)
      requires Valid()
      modifies this`tokens, file
      ensures Valid() && ok == (outcome == Durable)
      ensures tokens == if ok then old(tokens)[token := Access(binding, resource)] else old(tokens)
      ensures file.bytes == if outcome == AppendFails then old(file.bytes)
                            else old(file.bytes) + Line(file.fmt, TokenIssued(token, Access(binding, resource)))
      ensures file.synced == if ok then |file.bytes| else old(file.synced)
    {
      ok := Persist(TokenIssued(token, Access(binding, resource)), outcome);
      if ok {
        tokens := tokens[token := Access(binding, resource)];
      }
    }

    method PutCode(code: string, issued: AuthCode)
      modifies this`codes
      ensures codes == old(codes)[code := issued]
    {
      codes := codes[code := issued];
    }

    /** Removes the code whether or not it has expired. */
    method TakeCode(code: string, now: nat) returns (issued: Option<AuthCode>)
      modifies this`codes
      ensures codes == old(codes) - {code}
      ensures issued == if code in old(codes) && now < old(codes)[code].expires then Some(old(codes)[code]) else None
    {
      if code !in codes {
        return None;
      }
      issued := Some(codes[code]);
      codes := codes - {code};
      if issued.value.expires <= now {
        issued := None;
      }
    }

    method TokenValid(token: string, resource: string) returns (valid: bool)
      ensures valid <==> Honoured(tokens, binding, token, resource)
    {
      valid := token in tokens && tokens[token].binding == binding
               && (tokens[token].resource.None? || tokens[token].resource.value == resource);
    }
  }
}
