/**
 The tags by which a pane remembers the session it carries: identifiers and directories
 written in hexadecimal into tmux option names, and read back from a listing in any order.
 */
module TagCodec {
  import opened Wrappers
  import opened Jsonl

  /** Texts are their UTF-8 bytes, tags are option names. */
  type Text = seq<Byte>
  type Tag = string

  const ACP := "acp"
  const RESUMABLE := "acp-resumable"
  const DELETED := "acp-deleted"
  const SESSION_PREFIX := "acp-session-"
  const CWD_PREFIX := "acp-cwd-"
  const SCOPE_PREFIX := "acp-scope-"
  const OWNER_PREFIX := "acp-owner-"

  // ---- hexadecimal ----

  type Nibble = n: nat | n < 16

  function Digit(n: Nibble): char {
    if n < 10 then '0' + n as char else 'a' + (n - 10) as char
  }

  function ToDigit(c: char): Option<Nibble> {
    if '0' <= c <= '9' then Some((c - '0') as int)
    else if 'a' <= c <= 'f' then Some((c - 'a') as int + 10)
    else if 'A' <= c <= 'F' then Some((c - 'A') as int + 10)
    else None
  }

  function HexEncode(bytes: seq<Byte>): string {
    if bytes == [] then "" else [Digit(bytes[0] / 16), Digit(bytes[0] % 16)] + HexEncode(bytes[1..])
  }

  function HexDecode(encoded: string): Option<seq<Byte>> {
    if encoded == "" then Some([])
    else if |encoded| == 1 then None
    else
      var high, low, rest := ToDigit(encoded[0]), ToDigit(encoded[1]), HexDecode(encoded[2..]);
      if high.None? || low.None? || rest.None? then None
      else Some([high.value * 16 + low.value] + rest.value)
  }

  function Lowered(c: char): char {
    if 'A' <= c <= 'F' then c - 'A' + 'a' else c
  }

  function LowerCase(s: string): string {
    seq(|s|, i requires 0 <= i < |s| => Lowered(s[i]))
  }

  lemma DigitsAgree(c: char, n: Nibble)
    ensures ToDigit(c) == Some(n) <==> Lowered(c) == Digit(n)
  {
  }

  /** Decoding inverts encoding, and accepts nothing else but the same digits in upper case. */
  lemma {:induction false} HexDecodesIff(encoded: string, bytes: seq<Byte>)
    ensures HexDecode(encoded) == Some(bytes) <==> LowerCase(encoded) == HexEncode(bytes)
    decreases |encoded|
  {
    var lower := LowerCase(encoded);
    if |encoded| < 2 || bytes == [] {
      assert bytes != [] ==> |HexEncode(bytes)| >= 2;
    } else {
      HexDecodesIff(encoded[2..], bytes[1..]);
      assert LowerCase(encoded[2..]) == lower[2..];
      DigitsAgree(encoded[0], bytes[0] / 16);
      DigitsAgree(encoded[1], bytes[0] % 16);
      assert lower[0] == Lowered(encoded[0]) && lower[1] == Lowered(encoded[1]);
      assert lower == [lower[0], lower[1]] + lower[2..];
      assert bytes == [bytes[0]] + bytes[1..];
      var high, low, rest := ToDigit(encoded[0]), ToDigit(encoded[1]), HexDecode(encoded[2..]);
      if high.Some? && low.Some? && rest.Some? {
        DivMod(high.value, low.value);
        assert [bytes[0]] + rest.value == bytes <==> rest.value == bytes[1..];
      }
      assert HexEncode(bytes)[2..] == HexEncode(bytes[1..]);
    }
  }

  lemma DivMod(high: Nibble, low: Nibble)
    ensures (high * 16 + low) / 16 == high && (high * 16 + low) % 16 == low
  {
  }

  lemma {:induction false} EncodedIsLower(bytes: seq<Byte>)
    ensures LowerCase(HexEncode(bytes)) == HexEncode(bytes)
  {
    if bytes != [] {
      EncodedIsLower(bytes[1..]);
      var encoded := HexEncode(bytes);
      assert encoded[2..] == HexEncode(bytes[1..]);
      assert forall i :: 2 <= i < |encoded| ==> encoded[i] == LowerCase(encoded[2..])[i - 2];
    }
  }

  // ---- tag names ----

  predicate IsTagChar(c: char) {
    'a' <= c <= 'z' || 'A' <= c <= 'Z' || '0' <= c <= '9' || c == '_' || c == '-'
  }

  predicate IsTagName(tag: Tag) {
    tag != "" && forall i :: 0 <= i < |tag| ==> IsTagChar(tag[i])
  }

  function TagOptionName(tag: Tag): Option<string> {
    if IsTagName(tag) then Some("@slopd_tag_" + tag) else None
  }

  /** Letters, digits, underscores and hyphens make a tag; its option has the prefix before it. */
  lemma TagNameIff(tag: Tag, name: string)
    ensures TagOptionName(tag) == Some(name) <==>
              && |tag| > 0 && name == "@slopd_tag_" + tag
              && forall i :: 0 <= i < |tag| ==>
                   || 'a' <= tag[i] <= 'z' || 'A' <= tag[i] <= 'Z' || '0' <= tag[i] <= '9' || tag[i] in {'_', '-'}
  {
    assert IsTagName(tag) <==> |tag| > 0 && forall i :: 0 <= i < |tag| ==> IsTagChar(tag[i]);
  }

  function SessionTag(session: Text): Tag {
    SESSION_PREFIX + HexEncode(session)
  }

  function CwdTag(cwd: Text): Tag {
    CWD_PREFIX + HexEncode(cwd)
  }

  function ScopeTag(scope: Text): Tag {
    SCOPE_PREFIX + HexEncode(scope)
  }

  /** Whatever the bytes, the tags that hold them are legal names. */
  lemma {:induction false} EncodedTagsAreLegal(bytes: seq<Byte>)
    ensures forall i :: 0 <= i < |HexEncode(bytes)| ==> IsTagChar(HexEncode(bytes)[i])
    ensures IsTagName(SessionTag(bytes)) && IsTagName(CwdTag(bytes)) && IsTagName(ScopeTag(bytes))
  {
    if bytes != [] {
      EncodedTagsAreLegal(bytes[1..]);
    }
  }

  // ---- reading tags ----

  /** What follows the prefix in the first tag that has it. */
  function Suffix(tags: seq<Tag>, prefix: string): Option<string> {
    if tags == [] then None
    else if prefix <= tags[0] then Some(tags[0][|prefix|..])
    else Suffix(tags[1..], prefix)
  }

  function Decoded(encoded: string, isText: seq<Byte> -> bool): Option<Text> {
    match HexDecode(encoded)
    case None => None
    case Some(bytes) => if isText(bytes) then Some(bytes) else None
  }

  function DecodedTag(tags: seq<Tag>, prefix: string, isText: seq<Byte> -> bool): Option<Text> {
    match Suffix(tags, prefix)
    case None => None
    case Some(encoded) => Decoded(encoded, isText)
  }

  // ---- writing tags ----

  function WithoutForeignOwners(existing: set<Tag>, owner: Tag): set<Tag> {
    set t | t in existing && (OWNER_PREFIX <= t ==> t == owner)
  }

  /** What tagging a pane for a session leaves on it; tags of an earlier session, directory or scope stay. */
  function AfterTagging(existing: set<Tag>, session: Text, cwd: Text, scope: Tag, owner: Tag, resumable: bool): set<Tag> {
    var tagged := WithoutForeignOwners(existing, owner) + {ACP, scope, SessionTag(session), CwdTag(cwd), owner};
    if resumable then tagged + {RESUMABLE} else tagged - {RESUMABLE}
  }

  /** A tmux pane's tag options; a name that is not legal is refused. */
  class PaneTags {
    var tags: set<Tag>

    method Tag(tag: Tag) returns (ok: bool)
      modifies this
      ensures ok == IsTagName(tag)
      ensures tags == if ok then old(tags) + {tag} else old(tags)
    {
      var name := TagOptionName(tag);
      if name.None? {
        return false;
      }
      tags := tags + {tag};
      return true;
    }

    method Untag(tag: Tag)
      modifies this
      ensures tags == old(tags) - {tag}
    {
      tags := tags - {tag};
    }

    method DropForeignOwners(existing: seq<Tag>, owner: Tag)
      requires (set t | t in existing) == tags
      modifies this
      ensures tags == WithoutForeignOwners(old(tags), owner)
    {
      var i := 0;
      while i < |existing|
        invariant 0 <= i <= |existing|
        invariant tags == set t | t in old(tags) && !(t in existing[..i] && OWNER_PREFIX <= t && t != owner)
      {
        var tag := existing[i];
        if OWNER_PREFIX <= tag && tag != owner {
          Untag(tag);
        }
        assert existing[..i + 1] == existing[..i] + [tag];
        i := i + 1;
      }
      assert existing[..i] == existing;
    }

    method TagAll(added: seq<Tag>)
      requires forall i :: 0 <= i < |added| ==> IsTagName(added[i])
      modifies this
      ensures tags == old(tags) + set t | t in added
    {
      var i := 0;
      while i < |added|
        invariant 0 <= i <= |added|
        invariant tags == old(tags) + set t | t in added[..i]
      {
        var ok := Tag(added[i]);
        assert added[..i + 1] == added[..i] + [added[i]];
        i := i + 1;
      }
      assert added[..i] == added;
    }

    /** Takes a pane over for a session; `existing` is the listing of its tags. No name it writes is ever refused. */
    method TagSessionPane(existing: seq<Tag>, session: Text, cwd: Text, scope: Text, owner: Tag, resumable: bool)
      requires (set t | t in existing) == tags
      requires IsTagName(owner) && OWNER_PREFIX <= owner
      modifies this
      ensures tags == AfterTagging(old(tags), session, cwd, ScopeTag(scope), owner, resumable)
    {
      DropForeignOwners(existing, owner);
      EncodedTagsAreLegal(session);
      EncodedTagsAreLegal(cwd);
      EncodedTagsAreLegal(scope);
      var added := [ACP, ScopeTag(scope), SessionTag(session), CwdTag(cwd), owner];
      TagAll(added);
      assert (set t | t in added) == {ACP, ScopeTag(scope), SessionTag(session), CwdTag(cwd), owner};
      if resumable {
        var ok := Tag(RESUMABLE);
      } else if RESUMABLE in existing {
        Untag(RESUMABLE);
      } else {
        NotResumable(session, cwd, scope, owner);
      }
    }
  }

  // ---- reading back what was written, whatever the order ----

  ghost predicate Lists(order: seq<Tag>, tags: set<Tag>) {
    forall t :: t in order <==> t in tags
  }

  lemma {:induction false} SuffixIs(order: seq<Tag>, prefix: string)
    ensures Suffix(order, prefix).Some? <==> exists t :: t in order && prefix <= t
    ensures Suffix(order, prefix).Some? ==> prefix + Suffix(order, prefix).value in order
  {
    if order != [] {
      SuffixIs(order[1..], prefix);
      if prefix <= order[0] {
        assert prefix + order[0][|prefix|..] == order[0] && order[0] in order;
      } else {
        assert forall t :: t in order[1..] ==> t in order;
        assert forall t :: t in order && prefix <= t ==> t in order[1..];
      }
    }
  }

  lemma {:induction false} SomeListing(tags: set<Tag>) returns (order: seq<Tag>)
    ensures Lists(order, tags)
    decreases |tags|
  {
    if tags == {} {
      order := [];
    } else {
      var t :| t in tags;
      order := SomeListing(tags - {t});
      order := [t] + order;
    }
  }

  /** Every tag of this kind holds this text. */
  ghost predicate OnlyHolds(tags: set<Tag>, prefix: string, text: Text, isText: seq<Byte> -> bool) {
    forall t :: t in tags && prefix <= t ==> Decoded(t[|prefix|..], isText) == Some(text)
  }

  /** A kind of tag reads the same in every listing exactly when all tags of the kind agree. */
  lemma ReadsSameIff(tags: set<Tag>, prefix: string, text: Text, isText: seq<Byte> -> bool)
    requires exists t :: t in tags && prefix <= t
    ensures (forall order :: Lists(order, tags) ==> DecodedTag(order, prefix, isText) == Some(text))
       <==> OnlyHolds(tags, prefix, text, isText)
  {
    forall order | Lists(order, tags) && OnlyHolds(tags, prefix, text, isText)
      ensures DecodedTag(order, prefix, isText) == Some(text)
    {
      SuffixIs(order, prefix);
      var t := prefix + Suffix(order, prefix).value;
      assert t in tags && t[|prefix|..] == Suffix(order, prefix).value;
    }
    forall t | t in tags && prefix <= t && (forall order :: Lists(order, tags) ==> DecodedTag(order, prefix, isText) == Some(text))
      ensures Decoded(t[|prefix|..], isText) == Some(text)
    {
      var order := SomeListing(tags);
      assert Lists([t] + order, tags);
      assert DecodedTag([t] + order, prefix, isText) == Some(text);
    }
  }

  lemma KindsAreDistinct(prefix: string, t: Tag)
    requires prefix == SESSION_PREFIX || prefix == CWD_PREFIX
    requires prefix <= t
    ensures t != ACP && t != RESUMABLE && t != DELETED && !(SCOPE_PREFIX <= t) && !(OWNER_PREFIX <= t)
    ensures prefix == SESSION_PREFIX ==> !(CWD_PREFIX <= t)
    ensures prefix == CWD_PREFIX ==> !(SESSION_PREFIX <= t)
  {
    assert t[4] == prefix[4] && t[5] == prefix[5];
    assert SCOPE_PREFIX[5] == 'c' && OWNER_PREFIX[4] == 'o' && SESSION_PREFIX[4] == 's' && SESSION_PREFIX[5] == 'e' && CWD_PREFIX[4] == 'c';
  }

  lemma NotResumable(session: Text, cwd: Text, scope: Text, owner: Tag)
    requires OWNER_PREFIX <= owner
    ensures RESUMABLE !in {ACP, ScopeTag(scope), SessionTag(session), CwdTag(cwd), owner}
  {
    assert RESUMABLE[4] == 'r' && owner[4] == OWNER_PREFIX[4] == 'o' && ScopeTag(scope)[4] == SCOPE_PREFIX[4] == 's';
    KindsAreDistinct(SESSION_PREFIX, SessionTag(session));
    KindsAreDistinct(CWD_PREFIX, CwdTag(cwd));
  }

  lemma WrittenHolds(prefix: string, text: Text, isText: seq<Byte> -> bool)
    requires isText(text)
    ensures Decoded((prefix + HexEncode(text))[|prefix|..], isText) == Some(text)
  {
    assert (prefix + HexEncode(text))[|prefix|..] == HexEncode(text);
    EncodedIsLower(text);
    HexDecodesIff(HexEncode(text), text);
  }

  lemma TaggedKind(existing: set<Tag>, session: Text, cwd: Text, scope: Text, owner: Tag, resumable: bool,
                   isText: seq<Byte> -> bool)
    requires isText(session) && isText(cwd) && OWNER_PREFIX <= owner
    ensures
      var tags := AfterTagging(existing, session, cwd, ScopeTag(scope), owner, resumable);
      && SessionTag(session) in tags && CwdTag(cwd) in tags
      && (OnlyHolds(tags, SESSION_PREFIX, session, isText) <==> OnlyHolds(existing, SESSION_PREFIX, session, isText))
      && (OnlyHolds(tags, CWD_PREFIX, cwd, isText) <==> OnlyHolds(existing, CWD_PREFIX, cwd, isText))
  {
    var tags := AfterTagging(existing, session, cwd, ScopeTag(scope), owner, resumable);
    WrittenHolds(SESSION_PREFIX, session, isText);
    WrittenHolds(CWD_PREFIX, cwd, isText);
    KindsAreDistinct(SESSION_PREFIX, SessionTag(session));
    KindsAreDistinct(CWD_PREFIX, CwdTag(cwd));
    forall t | SESSION_PREFIX <= t
      ensures t in tags <==> t in existing || t == SessionTag(session)
    {
      KindsAreDistinct(SESSION_PREFIX, t);
    }
    forall t | CWD_PREFIX <= t
      ensures t in tags <==> t in existing || t == CwdTag(cwd)
    {
      KindsAreDistinct(CWD_PREFIX, t);
    }
  }

  /**
   A tagged pane reads back as its session and directory in whatever order its tags are
   listed, exactly when it carried no tag of another session or another directory before.
   */
  lemma TagsReadBackIff(existing: set<Tag>, session: Text, cwd: Text, scope: Text, owner: Tag, resumable: bool,
                        isText: seq<Byte> -> bool)
    requires isText(session) && isText(cwd) && OWNER_PREFIX <= owner
    ensures
      var tags := AfterTagging(existing, session, cwd, ScopeTag(scope), owner, resumable);
      && ((forall order :: Lists(order, tags) ==> DecodedTag(order, SESSION_PREFIX, isText) == Some(session))
          <==> OnlyHolds(existing, SESSION_PREFIX, session, isText))
      && ((forall order :: Lists(order, tags) ==> DecodedTag(order, CWD_PREFIX, isText) == Some(cwd))
          <==> OnlyHolds(existing, CWD_PREFIX, cwd, isText))
  {
    var tags := AfterTagging(existing, session, cwd, ScopeTag(scope), owner, resumable);
    TaggedKind(existing, session, cwd, scope, owner, resumable, isText);
    assert SESSION_PREFIX <= SessionTag(session) && CWD_PREFIX <= CwdTag(cwd);
    ReadsSameIff(tags, SESSION_PREFIX, session, isText);
    ReadsSameIff(tags, CWD_PREFIX, cwd, isText);
  }

  lemma FirstIsRead(session: Text, order: seq<Tag>, isText: seq<Byte> -> bool)
    requires isText(session)
    ensures DecodedTag([SessionTag(session)] + order, SESSION_PREFIX, isText) == Some(session)
  {
    WrittenHolds(SESSION_PREFIX, session, isText);
    assert SESSION_PREFIX <= SessionTag(session);
  }

  /** A pane tagged for one session and then for another reads back as either, depending on the listing. */
  lemma RetaggedReadsEither(existing: set<Tag>, a: Text, b: Text, cwd: Text, scope: Text, owner: Tag, resumable: bool,
                            isText: seq<Byte> -> bool)
    requires isText(a) && isText(b) && isText(cwd) && OWNER_PREFIX <= owner
    ensures
      var tags := AfterTagging(AfterTagging(existing, a, cwd, ScopeTag(scope), owner, resumable),
                               b, cwd, ScopeTag(scope), owner, resumable);
      exists one, other :: Lists(one, tags) && Lists(other, tags)
        && DecodedTag(one, SESSION_PREFIX, isText) == Some(a) && DecodedTag(other, SESSION_PREFIX, isText) == Some(b)
  {
    var once := AfterTagging(existing, a, cwd, ScopeTag(scope), owner, resumable);
    var tags := AfterTagging(once, b, cwd, ScopeTag(scope), owner, resumable);
    KindsAreDistinct(SESSION_PREFIX, SessionTag(a));
    assert SessionTag(a) in once && SessionTag(a) in tags && SessionTag(b) in tags;
    var order := SomeListing(tags);
    var one, other := [SessionTag(a)] + order, [SessionTag(b)] + order;
    assert Lists(one, tags) && Lists(other, tags);
    FirstIsRead(a, order, isText);
    FirstIsRead(b, order, isText);
  }

  /** After tagging, a pane has one owner and is resumable exactly when the caller said so. */
  lemma OneOwner(existing: set<Tag>, session: Text, cwd: Text, scope: Text, owner: Tag, resumable: bool)
    requires OWNER_PREFIX <= owner
    ensures
      var tags := AfterTagging(existing, session, cwd, ScopeTag(scope), owner, resumable);
      && (forall t :: t in tags && OWNER_PREFIX <= t <==> t == owner)
      && (RESUMABLE in tags <==> resumable)
      && (DELETED in tags <==> DELETED in existing)
  {
    var tags := AfterTagging(existing, session, cwd, ScopeTag(scope), owner, resumable);
    KindsAreDistinct(SESSION_PREFIX, SessionTag(session));
    KindsAreDistinct(CWD_PREFIX, CwdTag(cwd));
    assert owner[4] == OWNER_PREFIX[4] == 'o' && ScopeTag(scope)[4] == SCOPE_PREFIX[4] == 's';
    assert RESUMABLE[4] == 'r' && DELETED[4] == 'd';
  }
}
