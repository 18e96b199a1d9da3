/**
 The OAuth store over every run of registrations, exchanges, write failures, crashes and
 reopens: what was acknowledged is never lost, nothing appears that was not asked for, and
 an authorization code buys at most one token.
 */
module OAuthDurability {
  import opened Wrappers
  import opened Jsonl
  import opened OAuth

  type Task = nat

  /** A code taken by the token endpoint, between its removal and the token. */
  datatype Held = Held(code: string, issued: AuthCode, form: TokenForm, now: nat)

  /** An attempt to store a token for a taken code, however it ended. */
  datatype Minted = Minted(held: Held, token: string, access: Access)

  /**
   `bytes` and the tables are the store. `log` lists the records written since the last open
   on top of those it replayed, `durable` of them on disk; `acked` and `tried` are the
   answers given: what was acknowledged and what was attempted without acknowledgement.
   */
  datatype Store = Store(
    up: bool,
    bytes: seq<Byte>,
    clients: map<string, Client>,
    tokens: map<string, Access>,
    binding: string,
    log: seq<Event>,
    durable: nat,
    acked: Tables,
    tried: Tables)

  /** Codes never reach the disk; `authorized` are the codes ever issued and `minted` every token made for one. */
  datatype Desk = Desk(
    codes: map<string, AuthCode>,
    held: map<Task, Held>,
    authorized: map<string, AuthCode>,
    minted: seq<Minted>)

  datatype State = State(store: Store, desk: Desk)

  datatype Action =
    | Register(id: string, client: Client, ending: Ending)
    | Authorize(code: string, issued: AuthCode)
    | Redeem(task: Task, form: TokenForm, now: nat)
    | Grant(task: Task, token: string, ending: Ending)
    | Crash(cut: nat)
    | Reopen(binding: string)

  function Synced(fmt: Format<Event>, s: Store): nat {
    if s.durable <= |s.log| then |Journal(fmt, s.log[..s.durable])| else 0
  }

  predicate FreshClient(s: Store, id: string) {
    id != PUBLIC_CLIENT_ID && id !in s.acked.clients && id !in s.tried.clients
  }

  predicate FreshToken(s: Store, token: string) {
    token !in s.acked.tokens && token !in s.tried.tokens
  }

  predicate Fresh(s: Store, e: Event) {
    match e
    case Version(_) => false
    case ClientRegistered(id, _) => FreshClient(s, id)
    case TokenIssued(token, _) => FreshToken(s, token)
  }

  /** The store after an attempt to write an event: it reaches the tables only once it is on disk. */
  function Written(fmt: Format<Event>, s: Store, e: Event, outcome: Outcome): Store {
    if outcome == AppendFails then s
    else
      var t := s.(bytes := s.bytes + Line(fmt, e), log := s.log + [e]);
      if outcome == Durable
      then
        var tables := Apply(Tables(s.clients, s.tokens), e);
        t.(acked := Apply(s.acked, e), durable := |t.log|, clients := tables.clients, tokens := tables.tokens)
      else t.(tried := Apply(s.tried, e))
  }

  /** A crash keeps some prefix that is at least as long as what was synced. */
  function Crashed(fmt: Format<Event>, s: Store, cut: nat): Option<Store> {
    if Synced(fmt, s) <= cut <= |s.bytes| then Some(s.(up := false, bytes := s.bytes[..cut])) else None
  }

  function ReopenStep(fmt: Format<Event>, s: Store, binding: string): Option<Store> {
    if s.up then None else
    var repaired := Repaired(fmt, s.bytes);
    match Replay(fmt, repaired)
    case Failure(_) => None
    case Success(records) =>
      var tables := Fold(records);
      var t := s.(up := true, clients := tables.clients, tokens := tables.tokens, binding := binding);
      Some(if repaired == []
           then t.(bytes := Line(fmt, Version(1)), log := [Version(1)], durable := 1)
           else t.(bytes := repaired, log := records))
  }

  /** How an attempt ends: with an answer, or with a crash that tears its record. */
  datatype Ending = Answered(outcome: Outcome) | Torn(cut: nat)

  function Attempt(fmt: Format<Event>, s: Store, e: Event, ending: Ending): Option<Store> {
    if !s.up || !Fresh(s, e) then None else
    match ending
    case Answered(outcome) => Some(Written(fmt, s, e, outcome))
    case Torn(cut) => Crashed(fmt, Written(fmt, s, e, SyncFails), cut)
  }

  function Taken(desk: Desk, task: Task, form: TokenForm, now: nat): Option<Desk> {
    if task in desk.held then None
    else if form.grantType != "authorization_code" || form.code !in desk.codes then Some(desk)
    else
      var issued := desk.codes[form.code];
      var rest := desk.(codes := desk.codes - {form.code});
      Some(if issued.expires <= now then rest else rest.(held := desk.held[task := Held(form.code, issued, form, now)]))
  }

  /** After the attempt to persist the token of a held code; a crash forgets all codes. */
  function Settled(desk: Desk, task: Task, token: string, access: Access, ending: Ending): Desk
    requires task in desk.held
  {
    var rest := desk.(held := desk.held - {task}, minted := desk.minted + [Minted(desk.held[task], token, access)]);
    if ending.Torn? then Forgotten(rest) else rest
  }

  function Forgotten(desk: Desk): Desk {
    desk.(codes := map[], held := map[])
  }

  function GrantStep(fmt: Format<Event>, challengeOf: string -> string, s: State, task: Task, token: string,
                     ending: Ending): Option<State>
  {
    if !s.store.up || task !in s.desk.held then None else
    var h := s.desk.held[task];
    if !Grants(challengeOf, h.issued, h.form)
    then Some(s.(desk := s.desk.(held := s.desk.held - {task})))
    else if exists i :: 0 <= i < |s.desk.minted| && s.desk.minted[i].token == token then None
    else
      var access := Access(s.store.binding, h.issued.resource);
      match Attempt(fmt, s.store, TokenIssued(token, access), ending)
      case None => None
      case Some(store) => Some(State(store, Settled(s.desk, task, token, access, ending)))
  }

  function Step(fmt: Format<Event>, challengeOf: string -> string, s: State, a: Action): Option<State> {
    match a
    case Register(id, client, ending) =>
      (match Attempt(fmt, s.store, ClientRegistered(id, client), ending)
       case None => None
       case Some(store) => Some(State(store, if ending.Torn? then Forgotten(s.desk) else s.desk)))
    case Authorize(code, issued) =>
      if !s.store.up || code in s.desk.authorized then None
      else Some(s.(desk := s.desk.(codes := s.desk.codes[code := issued],
                                   authorized := s.desk.authorized[code := issued])))
    case Redeem(task, form, now) =>
      (match Taken(s.desk, task, form, now)
       case None => None
       case Some(desk) => if s.store.up then Some(s.(desk := desk)) else None)
    case Grant(task, token, ending) => GrantStep(fmt, challengeOf, s, task, token, ending)
    case Crash(cut) =>
      (match Crashed(fmt, s.store, cut)
       case None => None
       case Some(store) => Some(State(store, Forgotten(s.desk))))
    case Reopen(binding) =>
      (match ReopenStep(fmt, s.store, binding)
       case None => None
       case Some(store) => Some(s.(store := store)))
  }

  function Run(fmt: Format<Event>, challengeOf: string -> string, s: State, actions: seq<Action>): Option<State>
    decreases |actions|
  {
    if actions == [] then Some(s)
    else
      var next := Step(fmt, challengeOf, s, actions[0]);
      if next.None? then None else Run(fmt, challengeOf, next.value, actions[1..])
  }

  const NOTHING := Tables(map[], map[])

  /** Before the first open: no file, nothing asked. */
  const START := State(Store(false, [], map[], map[], "", [], 0, NOTHING, NOTHING), Desk(map[], map[], map[], []))

  // ---- what every run keeps ----

  predicate KnownClient(s: Store, id: string, client: Client) {
    (id in s.acked.clients && s.acked.clients[id] == client) || (id in s.tried.clients && s.tried.clients[id] == client)
  }

  predicate KnownToken(s: Store, token: string, access: Access) {
    (token in s.acked.tokens && s.acked.tokens[token] == access) || (token in s.tried.tokens && s.tried.tokens[token] == access)
  }

  predicate Known(s: Store, e: Event) {
    match e
    case Version(_) => true
    case ClientRegistered(id, client) => id != PUBLIC_CLIENT_ID && KnownClient(s, id, client)
    case TokenIssued(token, access) => KnownToken(s, token, access)
  }

  ghost predicate Named(s: Store) {
    && s.acked.clients.Keys !! s.tried.clients.Keys
    && s.acked.tokens.Keys !! s.tried.tokens.Keys
    && PUBLIC_CLIENT_ID !in s.acked.clients && PUBLIC_CLIENT_ID !in s.tried.clients
  }

  /** Every record was asked for, under a name of its own. */
  ghost predicate LogKnown(s: Store) {
    Named(s) && forall i :: 0 <= i < |s.log| ==> Known(s, s.log[i])
  }

  /** Every acknowledged record is on disk. */
  ghost predicate AckedDurable(s: Store) {
    && s.durable <= |s.log|
    && (forall id :: id in s.acked.clients ==> ClientRegistered(id, s.acked.clients[id]) in s.log[..s.durable])
    && (forall token :: token in s.acked.tokens ==> TokenIssued(token, s.acked.tokens[token]) in s.log[..s.durable])
  }

  ghost predicate FileOk(fmt: Format<Event>, s: Store) {
    && s.durable <= |s.log|
    && |s.bytes| <= |Journal(fmt, s.log)|
    && s.bytes == Journal(fmt, s.log)[..|s.bytes|]
    && Synced(fmt, s) <= |s.bytes|
    && (s.up ==> s.bytes == Journal(fmt, s.log))
  }

  ghost predicate ClientsOk(s: Store) {
    && (forall id :: id in s.acked.clients ==> id in s.clients && s.clients[id] == s.acked.clients[id])
    && (forall id :: id in s.clients ==> id == PUBLIC_CLIENT_ID || KnownClient(s, id, s.clients[id]))
  }

  ghost predicate TokensOk(s: Store) {
    && (forall token :: token in s.acked.tokens ==> token in s.tokens && s.tokens[token] == s.acked.tokens[token])
    && (forall token :: token in s.tokens ==> KnownToken(s, token, s.tokens[token]))
  }

  /** The tables hold all that was acknowledged, and beyond that only what was attempted. */
  ghost predicate TablesOk(s: Store) {
    ClientsOk(s) && TokensOk(s)
  }

  ghost predicate Durability(fmt: Format<Event>, s: Store) {
    FileOk(fmt, s) && LogKnown(s) && AckedDurable(s) && (s.up ==> TablesOk(s))
  }

  // ---- replaying known records ----

  lemma {:induction false} FoldClients(s: Store, log: seq<Event>)
    requires Named(s) && forall i :: 0 <= i < |log| ==> Known(s, log[i])
    ensures forall id :: id in Fold(log).clients ==> id == PUBLIC_CLIENT_ID || KnownClient(s, id, Fold(log).clients[id])
    ensures forall id, client :: ClientRegistered(id, client) in log ==> id in Fold(log).clients && Fold(log).clients[id] == client
    decreases |log|
  {
    if log != [] {
      var front, last := log[..|log| - 1], log[|log| - 1];
      FoldClients(s, front);
      assert log == front + [last] && Known(s, last);
      if last.ClientRegistered? {
        assert Fold(log).clients == Fold(front).clients[last.clientId := last.client];
      } else {
        assert Fold(log).clients == Fold(front).clients;
      }
    }
  }

  lemma {:induction false} FoldTokens(s: Store, log: seq<Event>)
    requires Named(s) && forall i :: 0 <= i < |log| ==> Known(s, log[i])
    ensures forall token :: token in Fold(log).tokens ==> KnownToken(s, token, Fold(log).tokens[token])
    ensures forall token, access :: TokenIssued(token, access) in log ==> token in Fold(log).tokens && Fold(log).tokens[token] == access
    decreases |log|
  {
    if log != [] {
      var front, last := log[..|log| - 1], log[|log| - 1];
      FoldTokens(s, front);
      assert log == front + [last] && Known(s, last);
      if last.TokenIssued? {
        assert Fold(log).tokens == Fold(front).tokens[last.token := last.access];
      } else {
        assert Fold(log).tokens == Fold(front).tokens;
      }
    }
  }

  // ---- the file ----

  lemma JournalAppend(fmt: Format<Event>, log: seq<Event>, e: Event)
    ensures Journal(fmt, log + [e]) == Journal(fmt, log) + Line(fmt, e)
  {
    assert (log + [e])[..|log|] == log;
  }

  lemma WrittenFile(fmt: Format<Event>, s: Store, e: Event, outcome: Outcome)
    requires FileOk(fmt, s) && s.up
    ensures FileOk(fmt, Written(fmt, s, e, outcome))
  {
    var t := Written(fmt, s, e, outcome);
    if outcome != AppendFails {
      JournalAppend(fmt, s.log, e);
      assert t.log[..|t.log|] == t.log;
      JournalOfPrefix(fmt, t.log, t.durable);
    }
  }

  lemma WrittenLog(fmt: Format<Event>, s: Store, e: Event, outcome: Outcome)
    requires LogKnown(s) && Fresh(s, e)
    ensures LogKnown(Written(fmt, s, e, outcome))
  {
    var t := Written(fmt, s, e, outcome);
    forall i | 0 <= i < |t.log|
      ensures Known(t, t.log[i])
    {
      if i < |s.log| {
        assert Known(s, s.log[i]);
      }
    }
  }

  lemma WrittenAcked(fmt: Format<Event>, s: Store, e: Event, outcome: Outcome)
    requires AckedDurable(s) && Fresh(s, e)
    ensures AckedDurable(Written(fmt, s, e, outcome))
  {
    var t := Written(fmt, s, e, outcome);
    if outcome == Durable {
      assert t.log[..t.durable] == s.log + [e];
      assert forall x :: x in s.log[..s.durable] ==> x in s.log;
      assert e in s.log + [e];
    } else if outcome == SyncFails {
      assert t.log[..t.durable] == s.log[..s.durable];
    }
  }

  lemma WrittenTables(fmt: Format<Event>, s: Store, e: Event, outcome: Outcome)
    requires TablesOk(s) && Fresh(s, e)
    ensures TablesOk(Written(fmt, s, e, outcome))
  {
  }

  lemma AttemptDurability(fmt: Format<Event>, s: Store, e: Event, ending: Ending, s': Store)
    requires Durability(fmt, s) && Attempt(fmt, s, e, ending) == Some(s')
    ensures Durability(fmt, s')
  {
    var outcome := if ending.Answered? then ending.outcome else SyncFails;
    WrittenFile(fmt, s, e, outcome);
    WrittenLog(fmt, s, e, outcome);
    WrittenAcked(fmt, s, e, outcome);
    WrittenTables(fmt, s, e, outcome);
    if ending.Torn? {
      CrashDurability(fmt, Written(fmt, s, e, SyncFails), ending.cut, s');
    }
  }

  lemma CrashDurability(fmt: Format<Event>, s: Store, cut: nat, s': Store)
    requires Durability(fmt, s) && Crashed(fmt, s, cut) == Some(s')
    ensures Durability(fmt, s')
  {
  }

  /** Opening after a crash always succeeds: the file is the journal of the records that were complete. */
  lemma ReopenReplays(fmt: Format<Event>, s: Store)
    requires Lawful(fmt) && FileOk(fmt, s)
    ensures
      var kept := s.log[..Complete(fmt, s.log, |s.bytes|)];
      && s.durable <= |kept|
      && Repaired(fmt, s.bytes) == Journal(fmt, kept)
      && Replay(fmt, Journal(fmt, kept)) == Success(kept)
  {
    RepairCrashed(fmt, s.log, |s.bytes|);
    CompleteIsGreatest(fmt, s.log, |s.bytes|, s.durable);
    ReplayJournal(fmt, s.log[..Complete(fmt, s.log, |s.bytes|)]);
  }

  /** The reopened store holds the records kept, and its file is their journal. */
  lemma ReopenFile(fmt: Format<Event>, s: Store, binding: string, s': Store)
    requires Lawful(fmt) && FileOk(fmt, s) && ReopenStep(fmt, s, binding) == Some(s')
    ensures FileOk(fmt, s')
    ensures
      var kept := s.log[..Complete(fmt, s.log, |s.bytes|)];
      && s.durable <= |kept|
      && s'.up && s'.acked == s.acked && s'.tried == s.tried
      && Tables(s'.clients, s'.tokens) == Fold(kept)
      && (kept != [] ==> s'.log == kept && s'.durable == s.durable)
      && (kept == [] ==> s'.log == [Version(1)] && s'.durable == 1)
  {
    ReopenReplays(fmt, s);
    var kept := s.log[..Complete(fmt, s.log, |s.bytes|)];
    if kept == [] {
      VersionedFile(fmt, s');
    } else {
      JournalOfPrefix(fmt, kept, 0);
      JournalOfPrefix(fmt, kept, s.durable);
    }
  }

  lemma KeptAcked(s: Store, kept: seq<Event>, s': Store)
    requires AckedDurable(s) && s.durable <= |kept| && kept <= s.log
    requires s'.acked == s.acked
    requires kept != [] ==> s'.log == kept && s'.durable == s.durable
    requires kept == [] ==> s'.log == [Version(1)] && s'.durable == 1
    ensures AckedDurable(s')
  {
    assert kept[..s.durable] == s.log[..s.durable];
  }

  lemma KeptKnown(s: Store, kept: seq<Event>, s': Store)
    requires LogKnown(s) && kept <= s.log
    requires s'.acked == s.acked && s'.tried == s.tried
    requires s'.log == kept || s'.log == [Version(1)]
    ensures LogKnown(s')
  {
    forall i | 0 <= i < |s'.log|
      ensures Known(s', s'.log[i])
    {
      if s'.log == kept {
        assert Known(s, s.log[i]);
      }
    }
  }

  lemma KeptHoldsAcked(s: Store, kept: seq<Event>)
    requires AckedDurable(s) && s.durable <= |kept| && kept <= s.log
    ensures forall id :: id in s.acked.clients ==> ClientRegistered(id, s.acked.clients[id]) in kept
    ensures forall token :: token in s.acked.tokens ==> TokenIssued(token, s.acked.tokens[token]) in kept
  {
    assert kept[..s.durable] == s.log[..s.durable];
    assert forall x :: x in kept[..s.durable] ==> x in kept;
  }

  lemma KeptClients(s: Store, kept: seq<Event>, s': Store)
    requires Named(s) && forall i :: 0 <= i < |kept| ==> Known(s, kept[i])
    requires forall id :: id in s.acked.clients ==> ClientRegistered(id, s.acked.clients[id]) in kept
    requires s'.acked == s.acked && s'.tried == s.tried && s'.clients == Fold(kept).clients
    ensures ClientsOk(s')
  {
    FoldClients(s, kept);
  }

  lemma KeptTokens(s: Store, kept: seq<Event>, s': Store)
    requires Named(s) && forall i :: 0 <= i < |kept| ==> Known(s, kept[i])
    requires forall token :: token in s.acked.tokens ==> TokenIssued(token, s.acked.tokens[token]) in kept
    requires s'.acked == s.acked && s'.tried == s.tried && s'.tokens == Fold(kept).tokens
    ensures TokensOk(s')
  {
    FoldTokens(s, kept);
  }

  lemma ReopenDurability(fmt: Format<Event>, s: Store, binding: string, s': Store)
    requires Lawful(fmt) && Durability(fmt, s) && ReopenStep(fmt, s, binding) == Some(s')
    ensures Durability(fmt, s')
  {
    ReopenFile(fmt, s, binding, s');
    var kept := s.log[..Complete(fmt, s.log, |s.bytes|)];
    KeptAcked(s, kept, s');
    KeptKnown(s, kept, s');
    KeptHoldsAcked(s, kept);
    assert forall i :: 0 <= i < |kept| ==> kept[i] == s.log[i];
    KeptClients(s, kept, s');
    KeptTokens(s, kept, s');
  }

  lemma VersionedFile(fmt: Format<Event>, s: Store)
    requires s.up && s.bytes == Line(fmt, Version(1)) && s.log == [Version(1)] && s.durable == 1
    ensures FileOk(fmt, s)
  {
    JournalAppend(fmt, [], Version(1));
    assert [] + [Version(1)] == s.log && s.log[..1] == s.log;
    assert Journal(fmt, []) + Line(fmt, Version(1)) == s.bytes;
  }

  lemma StepDurability(fmt: Format<Event>, challengeOf: string -> string, s: State, a: Action, s': State)
    requires Lawful(fmt) && Durability(fmt, s.store) && Step(fmt, challengeOf, s, a) == Some(s')
    ensures Durability(fmt, s'.store)
  {
    match a
    case Register(id, client, ending) => AttemptDurability(fmt, s.store, ClientRegistered(id, client), ending, s'.store);
    case Grant(task, token, ending) =>
      var h := s.desk.held[task];
      if Grants(challengeOf, h.issued, h.form) {
        AttemptDurability(fmt, s.store, TokenIssued(token, Access(s.store.binding, h.issued.resource)), ending, s'.store);
      }
    case Crash(cut) => CrashDurability(fmt, s.store, cut, s'.store);
    case Reopen(binding) => ReopenDurability(fmt, s.store, binding, s'.store);
    case _ =>
  }

  lemma {:induction false} RunDurability(fmt: Format<Event>, challengeOf: string -> string, s: State,
                                         actions: seq<Action>, s': State)
    requires Lawful(fmt) && Durability(fmt, s.store) && Run(fmt, challengeOf, s, actions) == Some(s')
    ensures Durability(fmt, s'.store)
    decreases |actions|
  {
    if actions != [] {
      var next := Step(fmt, challengeOf, s, actions[0]).value;
      StepDurability(fmt, challengeOf, s, actions[0], next);
      RunDurability(fmt, challengeOf, next, actions[1..], s');
    }
  }

  /**
   After any registrations, exchanges, write failures, crashes and reopens, an open store
   holds every acknowledged client and token, and otherwise only the public client and what
   was attempted without acknowledgement. A store that is down can always be opened.
   */
  lemma AcknowledgedSurvives(fmt: Format<Event>, challengeOf: string -> string, actions: seq<Action>, s: State)
    requires Lawful(fmt) && Run(fmt, challengeOf, START, actions) == Some(s)
    ensures s.store.up ==> TablesOk(s.store)
    ensures !s.store.up ==> forall binding :: ReopenStep(fmt, s.store, binding).Some?
  {
    assert START.store.log[..0] == [];
    RunDurability(fmt, challengeOf, START, actions, s);
    ReopenReplays(fmt, s.store);
  }

  /** A token acknowledged once is honoured in every later state under the password it was issued for, and under no other. */
  lemma TokenHonouredIff(fmt: Format<Event>, challengeOf: string -> string, actions: seq<Action>, s: State,
                         token: string, resource: string)
    requires Lawful(fmt) && Run(fmt, challengeOf, START, actions) == Some(s) && s.store.up
    requires token in s.store.acked.tokens
    ensures Honoured(s.store.tokens, s.store.binding, token, resource) <==>
              var access := s.store.acked.tokens[token];
              && access.binding == s.store.binding
              && (access.resource.Some? ==> access.resource.value == resource)
  {
    AcknowledgedSurvives(fmt, challengeOf, actions, s);
  }

  // ---- codes do not outlive their process ----

  predicate ForgetsWhenDown(s: State) {
    s.store.up || (s.desk.codes == map[] && s.desk.held == map[])
  }

  lemma {:induction false} RunForgets(fmt: Format<Event>, challengeOf: string -> string, s: State,
                                      actions: seq<Action>, s': State)
    requires ForgetsWhenDown(s) && Run(fmt, challengeOf, s, actions) == Some(s')
    ensures ForgetsWhenDown(s')
    decreases |actions|
  {
    if actions != [] {
      RunForgets(fmt, challengeOf, Step(fmt, challengeOf, s, actions[0]).value, actions[1..], s');
    }
  }

  /** In every run a store that went down, and one just reopened, holds no code: those issued before buy nothing any more. */
  lemma CodesDieInCrashes(fmt: Format<Event>, challengeOf: string -> string, actions: seq<Action>, s: State, binding: string, s': State)
    requires Run(fmt, challengeOf, START, actions) == Some(s) && Step(fmt, challengeOf, s, Reopen(binding)) == Some(s')
    ensures s.desk.codes == s'.desk.codes == map[] && s.desk.held == s'.desk.held == map[]
    ensures s'.store.up && s'.store.binding == binding
    ensures s'.desk.authorized == s.desk.authorized
  {
    RunForgets(fmt, challengeOf, START, actions, s);
  }

  // ---- one token for a code ----

  /** A code as it was issued, taken before it expired. */
  predicate Taking(d: Desk, h: Held) {
    h.code in d.authorized && h.issued == d.authorized[h.code] && h.code == h.form.code && h.now < h.issued.expires
  }

  /** An unspent code is neither held nor spent on a token. */
  ghost predicate CodesOk(challengeOf: string -> string, d: Desk) {
    && (forall code :: code in d.codes ==> code in d.authorized && d.codes[code] == d.authorized[code])
    && (forall t :: t in d.held ==> Taking(d, d.held[t]) && d.held[t].code !in d.codes)
    && (forall t, u :: t in d.held && u in d.held && d.held[t].code == d.held[u].code ==> t == u)
    && (forall i :: 0 <= i < |d.minted| ==>
          && Taking(d, d.minted[i].held) && d.minted[i].held.code !in d.codes
          && d.minted[i].access.resource == d.minted[i].held.issued.resource
          && Grants(challengeOf, d.minted[i].held.issued, d.minted[i].held.form))
    && (forall i, t :: 0 <= i < |d.minted| && t in d.held ==> d.minted[i].held.code != d.held[t].code)
  }

  /** Two tokens are two, and come from two codes. */
  ghost predicate MintedApart(d: Desk) {
    forall i, j :: 0 <= i < j < |d.minted| ==>
      d.minted[i].held.code != d.minted[j].held.code && d.minted[i].token != d.minted[j].token
  }

  predicate Mints(d: Desk, i: int, token: string, access: Access) {
    0 <= i < |d.minted| && d.minted[i].token == token && d.minted[i].access == access
  }

  /** Every token that may be on disk was made for a code. */
  ghost predicate TokensMinted(s: State) {
    forall token, access :: KnownToken(s.store, token, access) ==> exists i :: Mints(s.desk, i, token, access)
  }

  ghost predicate Bought(challengeOf: string -> string, s: State) {
    CodesOk(challengeOf, s.desk) && MintedApart(s.desk) && TokensMinted(s)
  }

  lemma TakenCodes(challengeOf: string -> string, d: Desk, task: Task, form: TokenForm, now: nat, d': Desk)
    requires CodesOk(challengeOf, d) && Taken(d, task, form, now) == Some(d')
    ensures CodesOk(challengeOf, d') && d'.minted == d.minted
  {
    if task !in d.held && form.grantType == "authorization_code" && form.code in d.codes {
      assert d'.codes == d.codes - {form.code};
    }
  }

  lemma SettledCodes(challengeOf: string -> string, d: Desk, task: Task, token: string, access: Access, ending: Ending)
    requires CodesOk(challengeOf, d) && MintedApart(d) && task in d.held
    requires Grants(challengeOf, d.held[task].issued, d.held[task].form)
    requires access.resource == d.held[task].issued.resource
    requires forall i :: 0 <= i < |d.minted| ==> d.minted[i].token != token
    ensures CodesOk(challengeOf, Settled(d, task, token, access, ending))
    ensures MintedApart(Settled(d, task, token, access, ending))
  {
  }

  lemma AttemptTokens(fmt: Format<Event>, s: Store, e: Event, ending: Ending, s': Store, token: string, access: Access)
    requires Attempt(fmt, s, e, ending) == Some(s') && KnownToken(s', token, access)
    ensures KnownToken(s, token, access) || e == TokenIssued(token, access)
  {
  }

  /** Only an attempt to store a token adds one that may be on disk. */
  lemma StepKnown(fmt: Format<Event>, challengeOf: string -> string, s: State, a: Action, s': State,
                  token: string, access: Access)
    requires Step(fmt, challengeOf, s, a) == Some(s') && KnownToken(s'.store, token, access)
    ensures s.desk.minted <= s'.desk.minted
    ensures KnownToken(s.store, token, access) || Mints(s'.desk, |s.desk.minted|, token, access)
  {
    match a
    case Register(id, client, ending) =>
      AttemptTokens(fmt, s.store, ClientRegistered(id, client), ending, s'.store, token, access);
    case Grant(task, made, ending) =>
      var h := s.desk.held[task];
      if Grants(challengeOf, h.issued, h.form) {
        var e := TokenIssued(made, Access(s.store.binding, h.issued.resource));
        AttemptTokens(fmt, s.store, e, ending, s'.store, token, access);
      }
    case _ =>
  }

  lemma StepTokens(fmt: Format<Event>, challengeOf: string -> string, s: State, a: Action, s': State)
    requires TokensMinted(s) && Step(fmt, challengeOf, s, a) == Some(s')
    ensures TokensMinted(s')
  {
    forall token, access | KnownToken(s'.store, token, access)
      ensures exists i :: Mints(s'.desk, i, token, access)
    {
      StepKnown(fmt, challengeOf, s, a, s', token, access);
      if KnownToken(s.store, token, access) {
        var i :| Mints(s.desk, i, token, access);
        assert Mints(s'.desk, i, token, access);
      }
    }
  }

  lemma GrantCodes(fmt: Format<Event>, challengeOf: string -> string, s: State, task: Task, token: string,
                   ending: Ending, s': State)
    requires CodesOk(challengeOf, s.desk) && MintedApart(s.desk)
    requires GrantStep(fmt, challengeOf, s, task, token, ending) == Some(s')
    ensures CodesOk(challengeOf, s'.desk) && MintedApart(s'.desk)
  {
    var h := s.desk.held[task];
    if Grants(challengeOf, h.issued, h.form) {
      SettledCodes(challengeOf, s.desk, task, token, Access(s.store.binding, h.issued.resource), ending);
    }
  }

  lemma StepCodes(fmt: Format<Event>, challengeOf: string -> string, s: State, a: Action, s': State)
    requires CodesOk(challengeOf, s.desk) && MintedApart(s.desk) && Step(fmt, challengeOf, s, a) == Some(s')
    ensures CodesOk(challengeOf, s'.desk) && MintedApart(s'.desk)
  {
    match a
    case Redeem(task, form, now) => TakenCodes(challengeOf, s.desk, task, form, now, s'.desk);
    case Grant(task, token, ending) => GrantCodes(fmt, challengeOf, s, task, token, ending, s');
    case _ =>
  }

  lemma {:induction false} RunCodes(fmt: Format<Event>, challengeOf: string -> string, s: State,
                                    actions: seq<Action>, s': State)
    requires Bought(challengeOf, s) && Run(fmt, challengeOf, s, actions) == Some(s')
    ensures Bought(challengeOf, s')
    decreases |actions|
  {
    if actions != [] {
      var next := Step(fmt, challengeOf, s, actions[0]).value;
      StepCodes(fmt, challengeOf, s, actions[0], next);
      StepTokens(fmt, challengeOf, s, actions[0], next);
      RunCodes(fmt, challengeOf, next, actions[1..], s');
    }
  }

  /** What the token endpoint compares: client, redirect, resource where the code has one, and the verifier's challenge. */
  predicate Agrees(challengeOf: string -> string, issued: AuthCode, form: TokenForm) {
    && form.clientId == issued.clientId && form.redirectUri == issued.redirectUri
    && (issued.resource == None || issued.resource == Some(form.resource))
    && issued.challenge == challengeOf(form.verifier)
  }

  lemma GrantsIff(challengeOf: string -> string, issued: AuthCode, form: TokenForm)
    ensures Grants(challengeOf, issued, form) <==> Agrees(challengeOf, issued, form)
  {
  }

  /**
   In every run each token of an open store, acknowledged or not, was made for exactly one
   code, for the resource that code was issued for, and no other token was made for that code.
   The code was taken before it expired, by the client, redirect, resource and verifier it was
   issued to.
   */
  lemma OneTokenPerCode(fmt: Format<Event>, challengeOf: string -> string, actions: seq<Action>, s: State)
    requires Lawful(fmt) && Run(fmt, challengeOf, START, actions) == Some(s)
    ensures s.store.up ==>
              forall token :: token in s.store.tokens ==>
                exists i :: Mints(s.desk, i, token, s.store.tokens[token])
    ensures forall i, j :: 0 <= i < j < |s.desk.minted| ==>
              s.desk.minted[i].held.code != s.desk.minted[j].held.code && s.desk.minted[i].token != s.desk.minted[j].token
    ensures forall i :: 0 <= i < |s.desk.minted| ==>
              var m := s.desk.minted[i];
              var h, form := m.held, m.held.form;
              && h.code in s.desk.authorized && h.issued == s.desk.authorized[h.code] && form.code == h.code
              && h.now < h.issued.expires && m.access.resource == h.issued.resource
              && form.clientId == h.issued.clientId && form.redirectUri == h.issued.redirectUri
              && (h.issued.resource.Some? ==> form.resource == h.issued.resource.value)
              && challengeOf(form.verifier) == h.issued.challenge
  {
    RunCodes(fmt, challengeOf, START, actions, s);
    AcknowledgedSurvives(fmt, challengeOf, actions, s);
    forall i | 0 <= i < |s.desk.minted|
      ensures Agrees(challengeOf, s.desk.minted[i].held.issued, s.desk.minted[i].held.form)
    {
      GrantsIff(challengeOf, s.desk.minted[i].held.issued, s.desk.minted[i].held.form);
    }
  }

  /** A code can be redeemed once it is issued, and is issued once. */
  lemma AuthorizeIssues(fmt: Format<Event>, challengeOf: string -> string, s: State, code: string, issued: AuthCode, s': State)
    requires Step(fmt, challengeOf, s, Authorize(code, issued)) == Some(s')
    ensures code !in s.desk.authorized && s'.desk.codes == s.desk.codes[code := issued]
    ensures s'.desk.authorized == s.desk.authorized[code := issued] && s'.store == s.store
  {
  }

  /** A code is held for its form exactly when the grant type is right and the code is known and unexpired; it is gone in any case. */
  lemma RedeemHoldsIff(desk: Desk, task: Task, form: TokenForm, now: nat, desk': Desk)
    requires task !in desk.held && Taken(desk, task, form, now) == Some(desk')
    ensures task in desk'.held <==>
              form.grantType == "authorization_code" && form.code in desk.codes && now < desk.codes[form.code].expires
    ensures task in desk'.held ==> desk'.held[task] == Held(form.code, desk.codes[form.code], form, now)
    ensures desk'.codes == if form.grantType == "authorization_code" then desk.codes - {form.code} else desk.codes
  {
  }

  /**
   Redeeming a code and writing a fresh token to disk puts the token in the table, under the current password and the
   code's resource, exactly when the form has the right grant type and an unexpired code issued to the same client and
   redirect, for the same resource if any, with the verifier's challenge. Nothing else changes in the tables.
   */
  lemma ExchangeIff(fmt: Format<Event>, challengeOf: string -> string, s: State, task: Task, form: TokenForm, now: nat,
                    token: string, m: State, s': State)
    requires Step(fmt, challengeOf, s, Redeem(task, form, now)) == Some(m) && task !in s.desk.held
    requires token !in s.store.tokens
    requires s' == OrSame(m, Step(fmt, challengeOf, m, Grant(task, token, Answered(Durable))))
    requires FreshToken(s.store, token) && forall i :: 0 <= i < |s.desk.minted| ==> s.desk.minted[i].token != token
    ensures token in s'.store.tokens <==>
              && form.grantType == "authorization_code" && form.code in s.desk.codes
              && var issued := s.desk.codes[form.code];
              && now < issued.expires
              && form.clientId == issued.clientId && form.redirectUri == issued.redirectUri
              && (issued.resource.Some? ==> form.resource == issued.resource.value)
              && challengeOf(form.verifier) == issued.challenge
    ensures s'.store.tokens == (if token in s'.store.tokens
                                then s.store.tokens[token := Access(s.store.binding, s.desk.codes[form.code].resource)]
                                else s.store.tokens)
    ensures s'.store.clients == s.store.clients
    ensures form.grantType == "authorization_code" ==> form.code !in s'.desk.codes && task !in s'.desk.held
  {
    RedeemHoldsIff(s.desk, task, form, now, m.desk);
    if task in m.desk.held {
      GrantsIff(challengeOf, m.desk.held[task].issued, form);
    }
  }

  function OrSame(s: State, next: Option<State>): State {
    if next.Some? then next.value else s
  }

  // ---- the store in place takes these steps ----

  /** The object holds the tables and the file of the state; what counts as durable is synced. */
  ghost predicate Represents(store: OAuthStore, s: Store)
    reads store, store.file
  {
    && store.Valid() && s.up
    && store.clients == s.clients && store.tokens == s.tokens && store.binding == s.binding
    && store.file.bytes == s.bytes
    && Synced(store.file.fmt, s) <= store.file.synced
  }

  lemma WrittenSynced(fmt: Format<Event>, s: Store, e: Event, outcome: Outcome)
    requires FileOk(fmt, s) && s.up
    ensures Synced(fmt, Written(fmt, s, e, outcome)) == if outcome == Durable then |Written(fmt, s, e, outcome).bytes| else Synced(fmt, s)
  {
    var t := Written(fmt, s, e, outcome);
    if outcome == Durable {
      JournalAppend(fmt, s.log, e);
      assert t.log[..|t.log|] == t.log;
    } else if outcome == SyncFails {
      assert t.log[..t.durable] == s.log[..s.durable];
    }
  }

  method RegisterInPlace(store: OAuthStore, ghost s: Store, id: string, redirectUris: seq<string>, outcome: Outcome)
    returns (ok: bool)
    requires Represents(store, s) && FileOk(store.file.fmt, s)
    modifies store`clients, store.file
    ensures ok == (outcome == Durable)
    ensures Represents(store, Written(store.file.fmt, s, ClientRegistered(id, Client(redirectUris)), outcome))
  {
    WrittenSynced(store.file.fmt, s, ClientRegistered(id, Client(redirectUris)), outcome);
    ok := store.Register(id, redirectUris, outcome);
  }

  method PutTokenInPlace(store: OAuthStore, ghost s: Store, token: string, resource: Option<string>, outcome: Outcome)
    returns (ok: bool)
    requires Represents(store, s) && FileOk(store.file.fmt, s)
    modifies store`tokens, store.file
    ensures ok == (outcome == Durable)
    ensures Represents(store, Written(store.file.fmt, s, TokenIssued(token, Access(s.binding, resource)), outcome))
  {
    WrittenSynced(store.file.fmt, s, TokenIssued(token, Access(s.binding, resource)), outcome);
    ok := store.PutToken(token, resource, outcome);
  }

  lemma ReopenSynced(fmt: Format<Event>, s: Store, binding: string, s': Store)
    requires Lawful(fmt) && FileOk(fmt, s) && ReopenStep(fmt, s, binding) == Some(s')
    ensures Synced(fmt, s') <= |s'.bytes|
    ensures Repaired(fmt, s.bytes) != [] ==> Synced(fmt, s') <= |s.bytes|
  {
    ReopenReplays(fmt, s);
    ReopenFile(fmt, s, binding, s');
    var kept := s.log[..Complete(fmt, s.log, |s.bytes|)];
    if kept != [] {
      assert kept[..s.durable] == s.log[..s.durable];
    }
  }

  /** Opening what a crash left takes the reopening step, and so always succeeds. */
  method OpenInPlace(file: JournalFile<Event>, ghost s: Store, binding: string) returns (store: OAuthStore, ghost s': Store)
    requires file.Valid() && file.bytes == s.bytes && file.synced == |file.bytes|
    requires Lawful(file.fmt) && FileOk(file.fmt, s) && !s.up
    modifies file
    ensures store.file == file && ReopenStep(file.fmt, s, binding) == Some(s') && Represents(store, s')
  {
    ReopenReplays(file.fmt, s);
    s' := ReopenStep(file.fmt, s, binding).value;
    ReopenSynced(file.fmt, s, binding, s');
    var built := OAuthStore.Open(file, binding);
    store := built.value;
  }
}
