/**
 Recovery: the catalog of sessions a restarted adapter rebuilds from the live panes and
 the graves it finds, newest grave first.
 */
module Recovery {
  import opened Wrappers
  import opened Jsonl
  import opened TagCodec

  type U64 = n: nat | n < 0x1_0000_0000_0000_0000

  const U64_MAX: U64 := 0xFFFF_FFFF_FFFF_FFFF
  const DEFAULT_ACCOUNT := "default"
  const ROOT: Text := [47]
  const LEGACY_PREFIX: Text := [115, 108, 111, 112, 100, 58]

  datatype Pane = Pane(id: Text, tags: seq<Tag>, native: Option<Text>, workingDir: Option<Text>, account: string,
                       backend: string, lastActive: U64, createdAt: U64, title: Option<Text>)

  datatype Grave = Grave(id: nat, pane: Pane, destroyedAt: U64, revivedAt: Option<U64>)

  datatype Config = Config(scopeTag: Tag, account: Option<string>, backend: Option<string>,
                           workingDirectory: Option<Text>, isText: seq<Byte> -> bool)

  datatype Session = Session(pane: Option<Text>, grave: Option<nat>, backend: Option<string>, native: Option<Text>,
                             cwd: Text, startDirectory: Text, lastUsed: U64, title: Option<Text>)

  function Max(a: U64, b: U64): U64 {
    if a < b then b else a
  }

  // ---- one pane, one grave ----

  function OwnScope(tags: seq<Tag>): Option<Tag> {
    match Suffix(tags, SCOPE_PREFIX)
    case None => None
    case Some(encoded) => Some(SCOPE_PREFIX + encoded)
  }

  predicate InScope(config: Config, pane: Pane) {
    if ACP !in pane.tags then false
    else if OwnScope(pane.tags).Some? then OwnScope(pane.tags).value == config.scopeTag
    else
      && pane.account == (if config.account.Some? then config.account.value else DEFAULT_ACCOUNT)
      && (config.backend.Some? ==> pane.backend == config.backend.value)
  }

  function TaggedSession(config: Config, pane: Pane): Option<Text> {
    DecodedTag(pane.tags, SESSION_PREFIX, config.isText)
  }

  function Cwd(config: Config, pane: Pane): Text {
    match DecodedTag(pane.tags, CWD_PREFIX, config.isText)
    case Some(cwd) => cwd
    case None => if pane.workingDir.Some? then pane.workingDir.value else ROOT
  }

  function StartDirectory(config: Config, pane: Pane): Text {
    if config.workingDirectory.Some? then config.workingDirectory.value else Cwd(config, pane)
  }

  /** The session a live pane carries; a pane of the adapter before tags were kept is named after itself. */
  function LiveId(config: Config, pane: Pane): Text {
    match TaggedSession(config, pane)
    case Some(id) => id
    case None => LEGACY_PREFIX + pane.id
  }

  predicate EligibleLive(config: Config, pane: Pane) {
    && InScope(config, pane)
    && DELETED !in pane.tags
    && if TaggedSession(config, pane).Some? then RESUMABLE in pane.tags else pane.native.Some?
  }

  predicate EligibleGrave(grave: Grave) {
    DELETED !in grave.pane.tags && grave.revivedAt.None? && RESUMABLE in grave.pane.tags && grave.pane.native.Some?
  }

  function LiveSession(config: Config, pane: Pane): Session {
    Session(Some(pane.id), None, Some(pane.backend), pane.native, Cwd(config, pane), StartDirectory(config, pane),
            Max(pane.lastActive, pane.createdAt), pane.title)
  }

  function BuriedSession(config: Config, grave: Grave): Session {
    Session(None, Some(grave.id), None, grave.pane.native, Cwd(config, grave.pane), StartDirectory(config, grave.pane),
            Max(grave.destroyedAt, grave.pane.lastActive), grave.pane.title)
  }

  // ---- what is recovered ----

  predicate Carries(config: Config, pane: Pane, id: Text) {
    EligibleLive(config, pane) && LiveId(config, pane) == id
  }

  predicate Buries(config: Config, grave: Grave, id: Text) {
    InScope(config, grave.pane) && TaggedSession(config, grave.pane) == Some(id)
  }

  /** The last eligible live pane of a session. */
  function LastLive(config: Config, panes: seq<Pane>, id: Text): (k: Option<nat>)
    ensures k.Some? ==> k.value < |panes| && Carries(config, panes[k.value], id)
    ensures k.Some? ==> forall j :: k.value < j < |panes| ==> !Carries(config, panes[j], id)
    ensures k.None? ==> forall j :: 0 <= j < |panes| ==> !Carries(config, panes[j], id)
  {
    LastWhere(panes, pane => Carries(config, pane, id))
  }

  /** The newest grave of a session in scope, whatever its state. */
  function NewestGrave(config: Config, graves: seq<Grave>, id: Text): (k: Option<nat>)
    ensures k.Some? ==> k.value < |graves| && Buries(config, graves[k.value], id)
    ensures k.Some? ==> forall j :: 0 <= j < k.value ==> !Buries(config, graves[j], id)
    ensures k.None? ==> forall j :: 0 <= j < |graves| ==> !Buries(config, graves[j], id)
  {
    FirstWhere(graves, grave => Buries(config, grave, id))
  }

  /** A session comes back from its last live pane, else from its newest grave if that one is eligible, else not at all. */
  function Recovered(config: Config, graves: seq<Grave>, panes: seq<Pane>, id: Text): Option<Session> {
    var live, buried := LastLive(config, panes, id), NewestGrave(config, graves, id);
    if live.Some? then Some(LiveSession(config, panes[live.value]))
    else if buried.Some? && EligibleGrave(graves[buried.value]) then Some(BuriedSession(config, graves[buried.value]))
    else None
  }

  ghost predicate IsCatalog(config: Config, graves: seq<Grave>, panes: seq<Pane>, catalog: map<Text, Session>) {
    forall id :: (if id in catalog then Some(catalog[id]) else None) == Recovered(config, graves, panes, id)
  }

  /** Panes to retag with their session and directory. */
  function Retagged(config: Config, panes: seq<Pane>): seq<(Text, Text, Text)> {
    if panes == [] then []
    else
      var pane := panes[|panes| - 1];
      Retagged(config, panes[..|panes| - 1])
      + if EligibleLive(config, pane) then [(pane.id, LiveId(config, pane), Cwd(config, pane))] else []
  }

  /** Panes to discard, with whether they carry a tombstone to keep. */
  function Discarded(config: Config, panes: seq<Pane>): seq<(Text, bool)> {
    if panes == [] then []
    else
      var pane := panes[|panes| - 1];
      Discarded(config, panes[..|panes| - 1])
      + if InScope(config, pane) && !EligibleLive(config, pane) then [(pane.id, DELETED in pane.tags)] else []
  }

  /** The clock starts one past everything recovered, and never at zero. */
  ghost predicate StartsAfter(catalog: map<Text, Session>, next: U64) {
    && next >= 1
    && (forall id :: id in catalog ==> catalog[id].lastUsed < next || next == U64_MAX)
    && (next == 1 || exists id :: id in catalog && (catalog[id].lastUsed + 1 == next || catalog[id].lastUsed == next == U64_MAX))
  }

  // ---- the recovery loops ----

  ghost predicate AreSeen(config: Config, graves: seq<Grave>, seen: set<Text>) {
    forall id :: id in seen <==> NewestGrave(config, graves, id).Some?
  }

  /** What one more grave changes. */
  lemma NextGrave(config: Config, graves: seq<Grave>, i: nat)
    requires i < |graves|
    ensures forall id :: NewestGrave(config, graves[..i + 1], id).Some? <==>
                         NewestGrave(config, graves[..i], id).Some? || Buries(config, graves[i], id)
    ensures forall id :: Recovered(config, graves[..i + 1], [], id) ==
                         if NewestGrave(config, graves[..i], id).None? && Buries(config, graves[i], id) && EligibleGrave(graves[i])
                         then Some(BuriedSession(config, graves[i]))
                         else Recovered(config, graves[..i], [], id)
  {
    assert graves[..i + 1][..i] == graves[..i];
  }

  /** The catalog and the seen sessions after one more grave, whatever it is. */
  lemma NextCatalog(config: Config, graves: seq<Grave>, i: nat, seen: set<Text>, recovered: map<Text, Session>)
    requires i < |graves| && AreSeen(config, graves[..i], seen) && IsCatalog(config, graves[..i], [], recovered)
    ensures
      var tagged := TaggedSession(config, graves[i].pane);
      if !InScope(config, graves[i].pane) || tagged.None? || tagged.value in seen
      then AreSeen(config, graves[..i + 1], seen) && IsCatalog(config, graves[..i + 1], [], recovered)
      else
        && AreSeen(config, graves[..i + 1], seen + {tagged.value})
        && IsCatalog(config, graves[..i + 1], [],
                     if EligibleGrave(graves[i]) then recovered[tagged.value := BuriedSession(config, graves[i])] else recovered)
  {
    NextGrave(config, graves, i);
  }

  method RecoverGraves(config: Config, graves: seq<Grave>) returns (recovered: map<Text, Session>)
    ensures IsCatalog(config, graves, [], recovered)
  {
    recovered := map[];
    var seen: set<Text> := {};
    var i := 0;
    while i < |graves|
      invariant 0 <= i <= |graves|
      invariant AreSeen(config, graves[..i], seen)
      invariant IsCatalog(config, graves[..i], [], recovered)
    {
      var grave := graves[i];
      NextCatalog(config, graves, i, seen, recovered);
      i := i + 1;
      if !InScope(config, grave.pane) {
        continue;
      }
      var tagged := TaggedSession(config, grave.pane);
      if tagged.None? {
        continue;
      }
      var id := tagged.value;
      if id in seen {
        continue;
      }
      seen := seen + {id};
      if DELETED in grave.pane.tags || grave.revivedAt.Some? {
        continue;
      }
      if RESUMABLE !in grave.pane.tags || grave.pane.native.None? {
        continue;
      }
      recovered := recovered[id := BuriedSession(config, grave)];
    }
    assert graves[..i] == graves;
  }

  /** What one more live pane changes. */
  lemma NextPane(config: Config, graves: seq<Grave>, panes: seq<Pane>, i: nat)
    requires i < |panes|
    ensures panes[..i + 1][..i] == panes[..i]
    ensures forall id :: Recovered(config, graves, panes[..i + 1], id) ==
                         if Carries(config, panes[i], id) then Some(LiveSession(config, panes[i]))
                         else Recovered(config, graves, panes[..i], id)
  {
    assert panes[..i + 1][..i] == panes[..i];
  }

  method RecoverLive(config: Config, graves: seq<Grave>, panes: seq<Pane>, buried: map<Text, Session>)
    returns (recovered: map<Text, Session>, live: seq<(Text, Text, Text)>, incomplete: seq<(Text, bool)>)
    requires IsCatalog(config, graves, [], buried)
    ensures IsCatalog(config, graves, panes, recovered)
    ensures live == Retagged(config, panes) && incomplete == Discarded(config, panes)
  {
    recovered := buried;
    live, incomplete := [], [];
    var i := 0;
    while i < |panes|
      invariant 0 <= i <= |panes|
      invariant IsCatalog(config, graves, panes[..i], recovered)
      invariant live == Retagged(config, panes[..i]) && incomplete == Discarded(config, panes[..i])
    {
      var pane := panes[i];
      NextPane(config, graves, panes, i);
      i := i + 1;
      if !InScope(config, pane) {
        continue;
      }
      if DELETED in pane.tags {
        incomplete := incomplete + [(pane.id, true)];
        continue;
      }
      var tagged := TaggedSession(config, pane);
      var legacy := tagged.None?;
      var id := if legacy then LEGACY_PREFIX + pane.id else tagged.value;
      if (!legacy && RESUMABLE !in pane.tags) || (legacy && pane.native.None?) {
        incomplete := incomplete + [(pane.id, false)];
        continue;
      }
      live := live + [(pane.id, id, Cwd(config, pane))];
      recovered := recovered[id := LiveSession(config, pane)];
    }
    assert panes[..i] == panes;
  }

  method NextActivity(catalog: map<Text, Session>) returns (next: U64)
    ensures StartsAfter(catalog, next)
  {
    var left := catalog.Keys;
    var newest: U64 := 0;
    while left != {}
      invariant left <= catalog.Keys
      invariant forall id :: id in catalog && id !in left ==> catalog[id].lastUsed <= newest
      invariant newest == 0 || exists id :: id in catalog && catalog[id].lastUsed == newest
      decreases |left|
    {
      var id :| id in left;
      newest := Max(newest, catalog[id].lastUsed);
      left := left - {id};
    }
    next := if newest == U64_MAX then U64_MAX else newest + 1;
    next := Max(next, 1);
  }

  /** Recovery as a whole: the catalog, where its clock starts, and what becomes of each live pane. */
  method RecoverSessions(config: Config, graves: seq<Grave>, panes: seq<Pane>)
    returns (recovered: map<Text, Session>, next: U64, live: seq<(Text, Text, Text)>, incomplete: seq<(Text, bool)>)
    ensures IsCatalog(config, graves, panes, recovered) && StartsAfter(recovered, next)
    ensures live == Retagged(config, panes) && incomplete == Discarded(config, panes)
  {
    var buried := RecoverGraves(config, graves);
    recovered, live, incomplete := RecoverLive(config, graves, panes, buried);
    next := NextActivity(recovered);
  }

  // ---- what follows ----

  predicate IsScopeTag(tag: Tag) {
    SCOPE_PREFIX <= tag
  }

  /** The adapter looks at its own panes: by their first scope tag, or, without one, by account and backend. */
  lemma InScopeIff(config: Config, pane: Pane)
    ensures forall k :: 0 <= k < |pane.tags| && IsScopeTag(pane.tags[k])
                        && (forall j :: 0 <= j < k ==> !IsScopeTag(pane.tags[j])) ==>
              (InScope(config, pane) <==> ACP in pane.tags && pane.tags[k] == config.scopeTag)
    ensures (forall tag :: tag in pane.tags ==> !IsScopeTag(tag)) ==>
              (InScope(config, pane) <==>
               && ACP in pane.tags
               && (pane.account == if config.account.Some? then config.account.value else "default")
               && (config.backend.Some? ==> config.backend.value == pane.backend))
  {
    SuffixIs(pane.tags, SCOPE_PREFIX);
    if k :| 0 <= k < |pane.tags| && IsScopeTag(pane.tags[k]) && forall j :: 0 <= j < k ==> !IsScopeTag(pane.tags[j]) {
      FirstSuffix(pane.tags, SCOPE_PREFIX, k);
      assert pane.tags[k] == SCOPE_PREFIX + pane.tags[k][|SCOPE_PREFIX|..];
    }
  }

  lemma {:induction false} FirstSuffix(tags: seq<Tag>, prefix: string, k: nat)
    requires k < |tags| && prefix <= tags[k] && forall j :: 0 <= j < k ==> !(prefix <= tags[j])
    ensures Suffix(tags, prefix) == Some(tags[k][|prefix|..])
    decreases k
  {
    if k > 0 {
      FirstSuffix(tags[1..], prefix, k - 1);
    }
  }

  /** A live pane without a tombstone carries the session it is tagged with, once resumable, or else one named after it. */
  lemma CarriesIff(config: Config, pane: Pane, id: Text)
    ensures Carries(config, pane, id) <==>
              && InScope(config, pane) && DELETED !in pane.tags
              && match DecodedTag(pane.tags, SESSION_PREFIX, config.isText)
                 case Some(session) => session == id && RESUMABLE in pane.tags
                 case None => pane.native.Some? && id == LEGACY_PREFIX + pane.id
  {
  }

  predicate IsLatest(at: U64, one: U64, other: U64) {
    at >= one && at >= other && (at == one || at == other)
  }

  /** The directory of the pane's tag, else the one it works in, else the root. */
  predicate IsCwd(config: Config, pane: Pane, cwd: Text) {
    match DecodedTag(pane.tags, CWD_PREFIX, config.isText)
    case Some(tagged) => cwd == tagged
    case None => cwd == if pane.workingDir.Some? then pane.workingDir.value else ROOT
  }

  predicate StartsIn(config: Config, s: Session) {
    s.startDirectory == if config.workingDirectory.Some? then config.workingDirectory.value else s.cwd
  }

  /**
   A session that no live pane carries is recovered exactly when its newest grave has no tombstone, was not revived,
   was resumable and has a native id; otherwise older graves do not count. It comes back without a pane, with
   that grave and native id.
   */
  lemma BuriedRecoveredIff(config: Config, graves: seq<Grave>, panes: seq<Pane>, catalog: map<Text, Session>, id: Text, k: nat)
    requires IsCatalog(config, graves, panes, catalog)
    requires forall j :: 0 <= j < |panes| ==> !Carries(config, panes[j], id)
    requires k < |graves| && Buries(config, graves[k], id)
    requires forall j :: 0 <= j < k ==> !Buries(config, graves[j], id)
    ensures
      var grave := graves[k];
      && InScope(config, grave.pane) && DecodedTag(grave.pane.tags, SESSION_PREFIX, config.isText) == Some(id)
      && (id in catalog <==>
            DELETED !in grave.pane.tags && grave.revivedAt.None? && RESUMABLE in grave.pane.tags && grave.pane.native.Some?)
      && (id in catalog ==>
            var s := catalog[id];
            && s.pane.None? && s.grave == Some(grave.id) && s.backend.None? && s.native == grave.pane.native
            && s.title == grave.pane.title && IsCwd(config, grave.pane, s.cwd) && StartsIn(config, s)
            && IsLatest(s.lastUsed, grave.destroyedAt, grave.pane.lastActive))
  {
    assert LastLive(config, panes, id).None?;
    var newest := NewestGrave(config, graves, id);
    assert newest.Some? && newest.value == k;
    assert (if id in catalog then Some(catalog[id]) else None) == Recovered(config, graves, panes, id);
  }

  /** A session that some live pane carries is recovered from the last such pane, whatever graves it has. */
  lemma LiveRecovered(config: Config, graves: seq<Grave>, panes: seq<Pane>, catalog: map<Text, Session>, id: Text, k: nat)
    requires IsCatalog(config, graves, panes, catalog)
    requires k < |panes| && Carries(config, panes[k], id)
    requires forall j :: k < j < |panes| ==> !Carries(config, panes[j], id)
    ensures id in catalog
    ensures
      var s, pane := catalog[id], panes[k];
      && s.pane == Some(pane.id) && s.grave.None? && s.backend == Some(pane.backend) && s.native == pane.native
      && s.title == pane.title && IsCwd(config, pane, s.cwd) && StartsIn(config, s)
      && IsLatest(s.lastUsed, pane.lastActive, pane.createdAt)
  {
    var last := LastLive(config, panes, id);
    assert last.Some? && last.value == k;
    assert (if id in catalog then Some(catalog[id]) else None) == Recovered(config, graves, panes, id);
  }

  /** Nothing else is recovered. */
  lemma RecoveredFromSomewhere(config: Config, graves: seq<Grave>, panes: seq<Pane>, catalog: map<Text, Session>, id: Text)
    requires IsCatalog(config, graves, panes, catalog) && id in catalog
    ensures || (exists j :: 0 <= j < |panes| && Carries(config, panes[j], id))
            || (exists j :: 0 <= j < |graves| && Buries(config, graves[j], id))
  {
    assert (if id in catalog then Some(catalog[id]) else None) == Recovered(config, graves, panes, id);
    var live, buried := LastLive(config, panes, id), NewestGrave(config, graves, id);
    if live.Some? {
      assert Carries(config, panes[live.value], id);
    } else {
      assert Buries(config, graves[buried.value], id);
    }
  }

  /** The catalog is determined: two recoveries from the same panes and graves agree. */
  lemma CatalogIsUnique(config: Config, graves: seq<Grave>, panes: seq<Pane>, a: map<Text, Session>, b: map<Text, Session>)
    requires IsCatalog(config, graves, panes, a) && IsCatalog(config, graves, panes, b)
    ensures a == b
  {
    forall id
      ensures id in a <==> id in b
      ensures id in a ==> a[id] == b[id]
    {
      assert (if id in a then Some(a[id]) else None) == (if id in b then Some(b[id]) else None);
    }
    assert a.Keys == b.Keys;
  }

  /** Every pane in scope is retagged or discarded, never both. */
  lemma {:induction false} PanesAccountedFor(config: Config, panes: seq<Pane>)
    ensures |Retagged(config, panes)| + |Discarded(config, panes)| == |InScopeOf(config, panes)|
    ensures forall i :: 0 <= i < |panes| ==>
              && (forall id :: Carries(config, panes[i], id) ==>
                    (panes[i].id, id, Cwd(config, panes[i])) in Retagged(config, panes))
              && (InScope(config, panes[i]) && (forall id :: !Carries(config, panes[i], id)) ==>
                    (panes[i].id, DELETED in panes[i].tags) in Discarded(config, panes))
    decreases |panes|
  {
    if panes != [] {
      var front := panes[..|panes| - 1];
      PanesAccountedFor(config, front);
      assert forall i :: 0 <= i < |front| ==> panes[i] == front[i];
      var last := panes[|front|];
      assert EligibleLive(config, last) ==> Carries(config, last, LiveId(config, last));
    }
  }

  function InScopeOf(config: Config, panes: seq<Pane>): seq<Pane> {
    if panes == [] then []
    else InScopeOf(config, panes[..|panes| - 1]) + if InScope(config, panes[|panes| - 1]) then [panes[|panes| - 1]] else []
  }

  /** The first scope tag of a listing. */
  lemma ScopeRead(tags: seq<Tag>, scope: Tag)
    requires scope in tags && SCOPE_PREFIX <= scope
    requires forall t :: t in tags && SCOPE_PREFIX <= t ==> t == scope
    ensures OwnScope(tags) == Some(scope)
  {
    SuffixIs(tags, SCOPE_PREFIX);
    assert SCOPE_PREFIX <= SCOPE_PREFIX + Suffix(tags, SCOPE_PREFIX).value;
  }

  /**
   A pane the adapter tagged as resumable is found again by its next recovery under the same
   session and directory, in whatever order its tags are listed, unless it carried a tombstone
   or a tag of another session, directory or scope before.
   */
  lemma TaggedPaneIsRecovered(config: Config, pane: Pane, existing: set<Tag>, session: Text, cwd: Text, scope: Text, owner: Tag)
    requires config.scopeTag == ScopeTag(scope) && OWNER_PREFIX <= owner
    requires config.isText(session) && config.isText(cwd)
    requires Lists(pane.tags, AfterTagging(existing, session, cwd, ScopeTag(scope), owner, true))
    requires DELETED !in existing
    requires OnlyHolds(existing, SESSION_PREFIX, session, config.isText)
    requires OnlyHolds(existing, CWD_PREFIX, cwd, config.isText)
    requires forall t :: t in existing && SCOPE_PREFIX <= t ==> t == ScopeTag(scope)
    ensures Carries(config, pane, session) && Cwd(config, pane) == cwd
  {
    var tags := AfterTagging(existing, session, cwd, ScopeTag(scope), owner, true);
    TagsReadBackIff(existing, session, cwd, scope, owner, true, config.isText);
    OneOwner(existing, session, cwd, scope, owner, true);
    assert DecodedTag(pane.tags, SESSION_PREFIX, config.isText) == Some(session);
    assert DecodedTag(pane.tags, CWD_PREFIX, config.isText) == Some(cwd);
    TaggedScope(existing, session, cwd, scope, owner);
    ScopeRead(pane.tags, ScopeTag(scope));
  }

  lemma TaggedScope(existing: set<Tag>, session: Text, cwd: Text, scope: Text, owner: Tag)
    requires OWNER_PREFIX <= owner
    requires forall t :: t in existing && SCOPE_PREFIX <= t ==> t == ScopeTag(scope)
    ensures
      var tags := AfterTagging(existing, session, cwd, ScopeTag(scope), owner, true);
      && ScopeTag(scope) in tags && SCOPE_PREFIX <= ScopeTag(scope)
      && forall t :: t in tags && SCOPE_PREFIX <= t ==> t == ScopeTag(scope)
  {
    KindsAreDistinct(SESSION_PREFIX, SessionTag(session));
    KindsAreDistinct(CWD_PREFIX, CwdTag(cwd));
    assert !(SCOPE_PREFIX <= owner) by {
      assert owner[4] == OWNER_PREFIX[4] == 'o' && SCOPE_PREFIX[4] == 's';
    }
    assert !(SCOPE_PREFIX <= RESUMABLE) by {
      assert RESUMABLE[4] == 'r' && SCOPE_PREFIX[4] == 's';
    }
    assert !(SCOPE_PREFIX <= ACP);
  }
}
