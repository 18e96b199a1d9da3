/**
 Payload paths: their surface syntax, read piece by piece, and what it means for a value to
 match one.
 */
module PayloadPath {
  import opened Wrappers
  import opened Json

  datatype Segment = Key(name: string) | Index(n: nat) | AnyElement

  type Path = seq<Segment>

  datatype Reason = EmptySegment | NoKey | Unclosed | BadIndex

  /** A path, an error, or a slice outside its text. */
  datatype Parsed = Done(path: Path) | Failed(reason: Reason) | Panicked

  function Prepended(first: Path, rest: Parsed): Parsed {
    if rest.Done? then Done(first + rest.path) else rest
  }

  function Find(s: string, c: char): (i: nat)
    ensures i <= |s|
    ensures forall j :: 0 <= j < i ==> s[j] != c
    ensures i < |s| ==> s[i] == c
  {
    if s == "" || s[0] == c then 0 else 1 + Find(s[1..], c)
  }

  function Split(s: string, c: char): (pieces: seq<string>)
    ensures pieces != []
    decreases |s|
  {
    var i := Find(s, c);
    if i == |s| then [s] else [s[..i]] + Split(s[i + 1..], c)
  }

  /** A leading plus sign and leading zeros are accepted. */
  function ParseIndex(s: string): Option<nat> {
    if s != "" && s[0] == '+' then ParseNat(s[1..]) else ParseNat(s)
  }

  /** An index is digits, after a plus sign or not, of a number below two to the 64. */
  lemma ParseIndexIff(s: string, n: nat)
    ensures ParseIndex(s) == Some(n) <==>
              exists digits :: (s == digits || s == "+" + digits) && IsNumber(digits, n)
  {
    if s != "" && s[0] == '+' {
      assert s == "+" + s[1..] && !IsDigit(s[0]);
      assert forall digits :: s == "+" + digits ==> digits == s[1..];
    } else {
      assert forall digits :: s != "+" + digits;
    }
    if ParseIndex(s) == Some(n) {
      assert IsNumber(if s[0] == '+' then s[1..] else s, n);
    }
  }

  predicate IsNumber(digits: string, n: nat) {
    digits != "" && (forall i :: 0 <= i < |digits| ==> '0' <= digits[i] <= '9') && n == Digits(digits) < 0x1_0000_0000_0000_0000
  }

  function IndexOf(inside: string): Option<Segment> {
    if inside == "" then Some(AnyElement)
    else
      match ParseIndex(inside)
      case None => None
      case Some(n) => Some(Index(n))
  }

  predicate IsAscii(c: char) {
    c as int < 128
  }

  /** What follows a key. The first character is skipped without being looked at, which cannot be done when it is the closing bracket or takes more than one byte. */
  function Brackets(rest: string): Parsed
    decreases |rest|
  {
    if rest == "" then Done([])
    else
      var close := Find(rest, ']');
      if close == |rest| then Failed(Unclosed)
      else if close == 0 || !IsAscii(rest[0]) then Panicked
      else
        match IndexOf(rest[1..close])
        case None => Failed(BadIndex)
        case Some(segment) => Prepended([segment], Brackets(rest[close + 1..]))
  }

  function Piece(piece: string): Parsed {
    if piece == "" then Failed(EmptySegment)
    else
      var i := Find(piece, '[');
      if i == 0 then Failed(NoKey) else Prepended([Key(piece[..i])], Brackets(piece[i..]))
  }

  function Pieces(pieces: seq<string>): Parsed {
    if pieces == [] then Done([])
    else
      match Piece(pieces[0])
      case Done(path) => Prepended(path, Pieces(pieces[1..]))
      case other => other
  }

  function WithoutDot(raw: string): string {
    if raw != "" && raw[0] == '.' then raw[1..] else raw
  }

  function PathOf(raw: string): Parsed {
    var trimmed := WithoutDot(raw);
    if trimmed == "" then Done([]) else Pieces(Split(trimmed, '.'))
  }

  // ---- the parsing loops ----

  lemma PrependedTwice(a: Path, b: Path, rest: Parsed)
    ensures Prepended(a, Prepended(b, rest)) == Prepended(a + b, rest)
  {
    if rest.Done? {
      assert a + (b + rest.path) == a + b + rest.path;
    }
  }

  lemma PrependedNothing(a: Path, rest: Parsed)
    ensures Prepended([], rest) == rest && Prepended(a, Done([])) == Done(a)
  {
    if rest.Done? {
      assert [] + rest.path == rest.path;
    }
    assert a + [] == a;
  }

  method ParsePiece(piece: string, before: Path) returns (parsed: Parsed)
    ensures parsed == Prepended(before, Piece(piece))
  {
    if piece == "" {
      return Failed(EmptySegment);
    }
    var i := Find(piece, '[');
    if i == 0 {
      return Failed(NoKey);
    }
    var out := before + [Key(piece[..i])];
    var rest := piece[i..];
    PrependedTwice(before, [Key(piece[..i])], Brackets(rest));
    while rest != ""
      invariant Prepended(before, Piece(piece)) == Prepended(out, Brackets(rest))
      decreases |rest|
    {
      var close := Find(rest, ']');
      if close == |rest| {
        return Failed(Unclosed);
      }
      if close == 0 || !IsAscii(rest[0]) {
        return Panicked;
      }
      var inside := rest[1..close];
      var segment: Segment;
      if inside == "" {
        segment := AnyElement;
      } else {
        var n := ParseIndex(inside);
        if n.None? {
          return Failed(BadIndex);
        }
        segment := Index(n.value);
      }
      PrependedTwice(out, [segment], Brackets(rest[close + 1..]));
      out := out + [segment];
      rest := rest[close + 1..];
    }
    PrependedNothing(out, Done([]));
    return Done(out);
  }

  method ParsePayloadPath(raw: string) returns (parsed: Parsed)
    ensures parsed == PathOf(raw)
  {
    var trimmed := WithoutDot(raw);
    if trimmed == "" {
      return Done([]);
    }
    var pieces := Split(trimmed, '.');
    var out: Path := [];
    var i := 0;
    assert pieces[0..] == pieces;
    PrependedNothing([], Pieces(pieces));
    while i < |pieces|
      invariant 0 <= i <= |pieces|
      invariant Pieces(pieces) == Prepended(out, Pieces(pieces[i..]))
    {
      parsed := ParsePiece(pieces[i], out);
      assert pieces[i..][1..] == pieces[i + 1..];
      if !parsed.Done? {
        return;
      }
      PrependedTwice(out, Piece(pieces[i]).path, Pieces(pieces[i + 1..]));
      out := parsed.path;
      i := i + 1;
    }
    PrependedNothing(out, Done([]));
    return Done(out);
  }

  // ---- what is accepted ----

  /** The rest begins with a group: any one-byte character in place of the opening bracket, an index or nothing, and a closing bracket. */
  predicate StartsGroup(rest: string) {
    var close := Find(rest, ']');
    0 < close < |rest| && IsAscii(rest[0]) && IndexOf(rest[1..close]).Some?
  }

  /** The first `n` characters are a run of groups. */
  predicate GroupsTo(rest: string, n: nat)
    requires n <= |rest|
    decreases n
  {
    n == 0
    || (var after := Find(rest, ']') + 1;
        StartsGroup(rest) && after <= n && GroupsTo(rest[after..], n - after))
  }

  /** What cannot be sliced: a closing bracket, or a longer character with a closing bracket after it. */
  predicate Stuck(s: string) {
    s != "" && (s[0] == ']' || (!IsAscii(s[0]) && Find(s, ']') < |s|))
  }

  /** After a run of groups comes what cannot be sliced. */
  predicate StuckAfter(rest: string, n: nat) {
    n <= |rest| && GroupsTo(rest, n) && Stuck(rest[n..])
  }

  lemma StuckTail(rest: string, n: nat)
    requires StartsGroup(rest)
    ensures
      var after := Find(rest, ']') + 1;
      StuckAfter(rest, n) <==> n >= after && StuckAfter(rest[after..], n - after)
  {
    var after := Find(rest, ']') + 1;
    if after <= n <= |rest| {
      assert rest[n..] == rest[after..][n - after..];
    } else if n == 0 {
      assert rest[0..] == rest;
    }
  }

  lemma BracketsStart(rest: string)
    ensures StartsGroup(rest) ==>
              var after := rest[Find(rest, ']') + 1..];
              && (Brackets(rest).Done? <==> Brackets(after).Done?)
              && (Brackets(rest).Panicked? <==> Brackets(after).Panicked?)
    ensures !StartsGroup(rest) ==> (Brackets(rest).Done? <==> rest == "") && (Brackets(rest).Panicked? <==> Stuck(rest))
  {
  }

  /** The brackets after a key are read exactly when they are groups. */
  lemma {:induction false} BracketsReadIff(rest: string)
    ensures Brackets(rest).Done? <==> GroupsTo(rest, |rest|)
    decreases |rest|
  {
    BracketsStart(rest);
    if StartsGroup(rest) {
      BracketsReadIff(rest[Find(rest, ']') + 1..]);
    }
  }

  ghost predicate GetsStuck(rest: string) {
    exists n: nat :: StuckAfter(rest, n)
  }

  lemma StuckLater(rest: string)
    requires StartsGroup(rest) && GetsStuck(rest)
    ensures GetsStuck(rest[Find(rest, ']') + 1..])
  {
    var n: nat :| StuckAfter(rest, n);
    StuckTail(rest, n);
    var after := Find(rest, ']') + 1;
    ghost var m: nat := n - after;
    assert StuckAfter(rest[after..], m);
  }

  lemma StuckEarlier(rest: string)
    requires StartsGroup(rest) && GetsStuck(rest[Find(rest, ']') + 1..])
    ensures GetsStuck(rest)
  {
    var after := Find(rest, ']') + 1;
    var n: nat :| StuckAfter(rest[after..], n);
    StuckTail(rest, after + n);
  }

  lemma GetsStuckAtOnce(rest: string)
    requires !StartsGroup(rest)
    ensures GetsStuck(rest) <==> Stuck(rest)
  {
    assert rest[0..] == rest;
    assert StuckAfter(rest, 0) <==> Stuck(rest);
  }

  /** A slice fails exactly after a run of groups, at a closing bracket or a longer character. */
  lemma {:induction false} BracketsPanicIff(rest: string)
    ensures Brackets(rest).Panicked? <==> GetsStuck(rest)
    decreases |rest|
  {
    BracketsStart(rest);
    if StartsGroup(rest) {
      BracketsPanicIff(rest[Find(rest, ']') + 1..]);
      if GetsStuck(rest) {
        StuckLater(rest);
      }
      if Brackets(rest).Panicked? {
        StuckEarlier(rest);
      }
    } else {
      GetsStuckAtOnce(rest);
    }
  }

  /** A key and groups. */
  predicate IsPiece(piece: string) {
    piece != "" && Find(piece, '[') > 0 && GroupsTo(piece[Find(piece, '[')..], |piece| - Find(piece, '['))
  }

  /** A key and groups, and then what cannot be sliced. */
  ghost predicate IsStuckPiece(piece: string) {
    piece != "" && Find(piece, '[') > 0 && GetsStuck(piece[Find(piece, '[')..])
  }

  lemma PieceOutcome(piece: string)
    ensures Piece(piece).Done? <==> IsPiece(piece)
    ensures Piece(piece).Panicked? <==> IsStuckPiece(piece)
  {
    BracketsReadIff(piece[Find(piece, '[')..]);
    BracketsPanicIff(piece[Find(piece, '[')..]);
  }

  predicate AllRead(pieces: seq<string>) {
    forall k :: 0 <= k < |pieces| ==> IsPiece(pieces[k])
  }

  /** This piece gets stuck and every piece before it is read. */
  ghost predicate StuckAt(pieces: seq<string>, k: nat) {
    k < |pieces| && IsStuckPiece(pieces[k]) && AllRead(pieces[..k])
  }

  lemma {:induction false} PiecesReadIff(pieces: seq<string>)
    ensures Pieces(pieces).Done? <==> AllRead(pieces)
    decreases |pieces|
  {
    if pieces != [] {
      PieceOutcome(pieces[0]);
      PiecesReadIff(pieces[1..]);
      assert AllRead(pieces) <==> IsPiece(pieces[0]) && AllRead(pieces[1..]) by {
        assert forall k :: 0 < k < |pieces| ==> pieces[k] == pieces[1..][k - 1];
      }
    }
  }

  lemma StuckAtNext(pieces: seq<string>, k: nat)
    requires pieces != []
    ensures k > 0 ==> (StuckAt(pieces, k) <==> IsPiece(pieces[0]) && StuckAt(pieces[1..], k - 1))
    ensures k == 0 ==> (StuckAt(pieces, k) <==> IsStuckPiece(pieces[0]))
  {
    if 0 < k < |pieces| {
      assert pieces[..k] == [pieces[0]] + pieces[1..][..k - 1];
      assert AllRead(pieces[..k]) <==> IsPiece(pieces[0]) && AllRead(pieces[1..][..k - 1]) by {
        assert pieces[..k][0] == pieces[0];
        assert forall j :: 0 < j < k ==> pieces[..k][j] == pieces[1..][..k - 1][j - 1];
      }
    }
  }

  lemma {:induction false} PiecesPanicIff(pieces: seq<string>)
    ensures Pieces(pieces).Panicked? <==> exists k: nat :: StuckAt(pieces, k)
    decreases |pieces|
  {
    if pieces != [] {
      PieceOutcome(pieces[0]);
      PiecesPanicIff(pieces[1..]);
      if Pieces(pieces).Panicked? {
        if IsStuckPiece(pieces[0]) {
          StuckAtNext(pieces, 0);
        } else {
          var k: nat :| StuckAt(pieces[1..], k);
          StuckAtNext(pieces, k + 1);
        }
      }
      forall k: nat | StuckAt(pieces, k)
        ensures Pieces(pieces).Panicked?
      {
        StuckAtNext(pieces, k);
        if k > 0 {
          assert StuckAt(pieces[1..], k - 1);
        }
      }
    }
  }

  /**
   A text is accepted exactly when every dotted piece is a key and groups; and a slice fails, which
   ends the program, exactly when some piece gets stuck and every piece before it was read.
   */
  lemma ParseOutcome(raw: string)
    requires WithoutDot(raw) != ""
    ensures PathOf(raw).Done? <==> AllRead(Split(WithoutDot(raw), '.'))
    ensures PathOf(raw).Panicked? <==> exists k: nat :: StuckAt(Split(WithoutDot(raw), '.'), k)
  {
    PiecesReadIff(Split(WithoutDot(raw), '.'));
    PiecesPanicIff(Split(WithoutDot(raw), '.'));
  }

  /** A path whose closing brackets are never followed by another or by a longer character is parsed or refused, never sliced wrongly. */
  predicate Guarded(raw: string) {
    forall i :: 0 < i < |raw| && raw[i - 1] == ']' ==> raw[i] != ']' && IsAscii(raw[i])
  }

  lemma {:induction false} GuardedBrackets(rest: string)
    requires Guarded(rest) && (rest != "" ==> rest[0] == '[' || (rest[0] != ']' && IsAscii(rest[0])))
    ensures !Brackets(rest).Panicked?
    decreases |rest|
  {
    if rest != "" {
      var close := Find(rest, ']');
      if 0 < close < |rest| && IndexOf(rest[1..close]).Some? {
        var tail := rest[close + 1..];
        assert forall i :: 0 <= i < |tail| ==> tail[i] == rest[close + 1 + i];
        GuardedBrackets(tail);
      }
    }
  }

  lemma GuardedSlice(s: string, i: nat, j: nat)
    requires Guarded(s) && i <= j <= |s|
    ensures Guarded(s[i..j]) && (i == 0 ==> Guarded(s[..j])) && (j == |s| ==> Guarded(s[i..]))
  {
    assert forall k :: 0 <= k < j - i ==> s[i..j][k] == s[i + k];
    if i == 0 {
      assert s[..j] == s[i..j];
    }
    if j == |s| {
      assert s[i..] == s[i..j];
    }
  }

  predicate AllGuarded(pieces: seq<string>) {
    forall k :: 0 <= k < |pieces| ==> Guarded(pieces[k])
  }

  lemma {:induction false} SplitGuarded(s: string, c: char)
    requires Guarded(s)
    ensures AllGuarded(Split(s, c))
    decreases |s|
  {
    var i := Find(s, c);
    if i < |s| {
      var first, rest := s[..i], s[i + 1..];
      GuardedSlice(s, 0, i);
      GuardedSlice(s, i + 1, |s|);
      SplitGuarded(rest, c);
      assert Split(s, c) == [first] + Split(rest, c);
    }
  }

  lemma {:induction false} GuardedPieces(pieces: seq<string>)
    requires AllGuarded(pieces)
    ensures !Pieces(pieces).Panicked?
    decreases |pieces|
  {
    if pieces != [] {
      GuardedPiece(pieces[0]);
      GuardedPieces(pieces[1..]);
    }
  }

  lemma GuardedPiece(piece: string)
    requires Guarded(piece)
    ensures !Piece(piece).Panicked?
  {
    var i := Find(piece, '[');
    var rest := piece[i..];
    assert forall j :: 0 <= j < |rest| ==> rest[j] == piece[i + j];
    GuardedBrackets(rest);
  }

  lemma GuardedNeverPanics(raw: string)
    requires Guarded(raw)
    ensures !PathOf(raw).Panicked?
  {
    var trimmed := WithoutDot(raw);
    if trimmed != raw {
      assert forall i :: 0 <= i < |trimmed| ==> trimmed[i] == raw[i + 1];
    }
    SplitGuarded(trimmed, '.');
    GuardedPieces(Split(trimmed, '.'));
  }

  lemma GroupFound(c: char, inside: string, rest: string)
    requires c != ']' && forall i :: 0 <= i < |inside| ==> inside[i] != ']'
    ensures
      var text := [c] + inside + "]" + rest;
      && Find(text, ']') == 1 + |inside| && text[1..1 + |inside|] == inside && text[2 + |inside|..] == rest
  {
    var text := [c] + inside + "]" + rest;
    assert forall j :: 0 < j < 1 + |inside| ==> text[j] == inside[j - 1];
    FindIs(text, ']', 1 + |inside|);
  }

  /** The opening bracket of a group is never looked at: any other one-byte character reads the same. */
  lemma OpeningIsUnread(c: char, inside: string, rest: string)
    requires IsAscii(c) && c != ']' && forall i :: 0 <= i < |inside| ==> inside[i] != ']'
    ensures Brackets([c] + inside + "]" + rest) == Brackets("[" + inside + "]" + rest)
  {
    GroupFound(c, inside, rest);
    GroupFound('[', inside, rest);
  }

  /** The shortest key with its brackets closed twice is sliced wrongly. */
  lemma DoubleClosePanics()
    ensures PathOf("k[]]") == Panicked
  {
    var piece := "k[]]";
    assert Find(piece, '.') == |piece|;
    assert Split(piece, '.') == [piece];
    assert Find(piece, '[') == 1;
    var rest := piece[1..];
    assert rest == "[]]" && Find(rest, ']') == 1;
    assert rest[1..1] == "" && rest[2..] == "]" && Find("]", ']') == 0;
    assert Brackets("]") == Panicked;
  }

  // ---- round trip ----

  predicate IsKey(name: string) {
    name != "" && forall i :: 0 <= i < |name| ==> name[i] != '.' && name[i] != '['
  }

  predicate IsSegment(segment: Segment) {
    match segment
    case Key(name) => IsKey(name)
    case Index(n) => n < TWO_TO_THE_64
    case AnyElement => true
  }

  /** Keys, each followed by indices and wildcards. */
  predicate Printable(path: Path) {
    && (path != [] ==> path[0].Key?)
    && forall i :: 0 <= i < |path| ==> IsSegment(path[i])
  }

  function PrintBracket(segment: Segment): string
    requires !segment.Key?
  {
    if segment.AnyElement? then "[]" else "[" + Decimal(segment.n) + "]"
  }

  /** The brackets before the next key. */
  function PrintBrackets(path: Path): string {
    if path == [] || path[0].Key? then "" else PrintBracket(path[0]) + PrintBrackets(path[1..])
  }

  function LeadingBrackets(path: Path): (n: nat)
    ensures n <= |path|
    ensures forall i :: 0 <= i < n ==> !path[i].Key?
    ensures n < |path| ==> path[n].Key?
  {
    if path == [] || path[0].Key? then 0 else 1 + LeadingBrackets(path[1..])
  }

  /** The path from its next key on. */
  function Later(path: Path): (later: Path)
    requires path != []
    ensures |later| < |path|
    ensures later != [] ==> later[0].Key?
  {
    path[1 + LeadingBrackets(path[1..])..]
  }

  /** A key with its brackets. */
  function PrintPiece(path: Path): string
    requires path != [] && path[0].Key?
  {
    path[0].name + PrintBrackets(path[1..])
  }

  /** The text of each key with its brackets. */
  function PrintPieces(path: Path): seq<string>
    requires path != [] ==> path[0].Key?
    decreases |path|
  {
    if path == [] then [] else [PrintPiece(path)] + PrintPieces(Later(path))
  }

  function Join(pieces: seq<string>, c: char): string {
    if pieces == [] then "" else if |pieces| == 1 then pieces[0] else pieces[0] + [c] + Join(pieces[1..], c)
  }

  function Print(path: Path): string
    requires path != [] ==> path[0].Key?
  {
    Join(PrintPieces(path), '.')
  }

  lemma FindIs(s: string, c: char, i: nat)
    requires i <= |s| && (i < |s| ==> s[i] == c) && forall j :: 0 <= j < i ==> s[j] != c
    ensures Find(s, c) == i
  {
  }

  lemma SplitFirst(piece: string, rest: string)
    requires NoDot(piece)
    ensures Split(piece, '.') == [piece]
    ensures Split(piece + ['.'] + rest, '.') == [piece] + Split(rest, '.')
  {
    FindIs(piece, '.', |piece|);
    var text := piece + ['.'] + rest;
    FindIs(text, '.', |piece|);
    assert text[..|piece|] == piece && text[|piece| + 1..] == rest;
  }

  lemma {:induction false} SplitJoin(pieces: seq<string>)
    requires pieces != [] && Clean(pieces)
    ensures Split(Join(pieces, '.'), '.') == pieces
    decreases |pieces|
  {
    SplitFirst(pieces[0], Join(pieces[1..], '.'));
    if |pieces| > 1 {
      SplitJoin(pieces[1..]);
      assert pieces == [pieces[0]] + pieces[1..];
    }
  }

  lemma GroupRead(inside: string, rest: string)
    requires forall i :: 0 <= i < |inside| ==> inside[i] != ']'
    requires IndexOf(inside).Some?
    ensures Brackets("[" + inside + "]" + rest) == Prepended([IndexOf(inside).value], Brackets(rest))
  {
    var text := "[" + inside + "]" + rest;
    var close := 1 + |inside|;
    assert forall j :: 0 < j < close ==> text[j] == inside[j - 1];
    FindIs(text, ']', close);
    assert text[1..close] == inside && text[close + 1..] == rest;
  }

  lemma BracketRead(segment: Segment, rest: string)
    requires !segment.Key? && IsSegment(segment)
    ensures Brackets(PrintBracket(segment) + rest) == Prepended([segment], Brackets(rest))
    ensures PrintBracket(segment)[0] == '['
    ensures forall i :: 0 <= i < |PrintBracket(segment)| ==> PrintBracket(segment)[i] != '.'
  {
    if segment.AnyElement? {
      GroupRead("", rest);
      assert "[" + "" + "]" + rest == "[]" + rest;
    } else {
      var inside := Decimal(segment.n);
      DecimalParses(segment.n);
      assert forall i :: 0 <= i < |inside| ==> IsDigit(inside[i]) && inside[i] != ']' && inside[i] != '.';
      assert IsDigit(inside[0]);
      GroupRead(inside, rest);
    }
  }

  /** The segments before the next key. */
  function Leading(path: Path): Path {
    if path == [] || path[0].Key? then [] else [path[0]] + Leading(path[1..])
  }

  lemma {:induction false} LeadingIsPrefix(path: Path)
    ensures Leading(path) == path[..LeadingBrackets(path)]
    decreases |path|
  {
    if path != [] && !path[0].Key? {
      LeadingIsPrefix(path[1..]);
    }
  }

  lemma {:induction false} BracketsRead(path: Path)
    requires forall i :: 0 <= i < |path| ==> IsSegment(path[i])
    ensures Brackets(PrintBrackets(path)) == Done(Leading(path))
    decreases |path|
  {
    if path != [] && !path[0].Key? {
      BracketsRead(path[1..]);
      assert IsSegment(path[0]);
      BracketRead(path[0], PrintBrackets(path[1..]));
    }
  }

  lemma {:induction false} BracketsLook(path: Path)
    requires forall i :: 0 <= i < |path| ==> IsSegment(path[i])
    ensures PrintBrackets(path) == "" || PrintBrackets(path)[0] == '['
    ensures NoDot(PrintBrackets(path))
    decreases |path|
  {
    if path != [] && !path[0].Key? {
      assert IsSegment(path[0]);
      BracketsLook(path[1..]);
      BracketRead(path[0], "");
    }
  }

  lemma KeyedBrackets(name: string, brackets: string)
    requires IsKey(name) && (brackets == "" || brackets[0] == '[')
    ensures Piece(name + brackets) == Prepended([Key(name)], Brackets(brackets))
  {
    var piece := name + brackets;
    FindIs(piece, '[', |name|);
    assert piece[..|name|] == name && piece[|name|..] == brackets;
  }

  lemma PieceRead(path: Path)
    requires path != [] && Printable(path)
    ensures Piece(PrintPiece(path)) == Done([path[0]] + Leading(path[1..]))
    ensures PrintPiece(path) != "" && NoDot(PrintPiece(path))
  {
    assert IsSegment(path[0]);
    BracketsRead(path[1..]);
    BracketsLook(path[1..]);
    KeyedBrackets(path[0].name, PrintBrackets(path[1..]));
  }

  lemma LaterPrintable(path: Path)
    requires path != [] && Printable(path)
    ensures Printable(Later(path))
    ensures [path[0]] + Leading(path[1..]) + Later(path) == path
  {
    var n := |path| - |Later(path)|;
    assert forall i :: 0 <= i < |path| - n ==> path[n..][i] == path[n + i];
    LeadingIsPrefix(path[1..]);
    assert [path[0]] + path[1..][..n - 1] == path[..n];
    assert path[..n] + path[n..] == path;
  }

  lemma PiecesCons(piece: string, rest: seq<string>)
    requires Piece(piece).Done? && Pieces(rest).Done?
    ensures Pieces([piece] + rest) == Done(Piece(piece).path + Pieces(rest).path)
  {
    assert ([piece] + rest)[1..] == rest;
  }

  lemma {:induction false} PiecesRead(path: Path)
    requires Printable(path)
    ensures Pieces(PrintPieces(path)) == Done(path)
    decreases |path|
  {
    if path != [] {
      PieceRead(path);
      LaterPrintable(path);
      PiecesRead(Later(path));
      PiecesCons(PrintPiece(path), PrintPieces(Later(path)));
    }
  }

  predicate Clean(pieces: seq<string>) {
    forall k :: 0 <= k < |pieces| ==> pieces[k] != "" && NoDot(pieces[k])
  }

  predicate NoDot(piece: string) {
    forall j :: 0 <= j < |piece| ==> piece[j] != '.'
  }

  lemma {:induction false} PiecesAreClean(path: Path)
    requires Printable(path)
    ensures Clean(PrintPieces(path)) && (path != [] ==> PrintPieces(path) != [])
    decreases |path|
  {
    if path != [] {
      PieceRead(path);
      LaterPrintable(path);
      PiecesAreClean(Later(path));
      assert NoDot(PrintPiece(path));
    }
  }

  /** Parsing the printed form of a path, with or without a leading dot, gives the path. */
  lemma RoundTrip(path: Path)
    requires Printable(path)
    ensures PathOf(Print(path)) == Done(path) && PathOf("." + Print(path)) == Done(path)
  {
    var pieces := PrintPieces(path);
    var text := Print(path);
    assert ("." + text)[1..] == text;
    PiecesRead(path);
    PiecesAreClean(path);
    if path != [] {
      assert pieces[0] != "" && text[0] == pieces[0][0];
      SplitJoin(pieces);
    }
  }

  lemma {:induction false} BracketsGive(rest: string)
    requires Brackets(rest).Done?
    ensures forall i :: 0 <= i < |Brackets(rest).path| ==> !Brackets(rest).path[i].Key? && IsSegment(Brackets(rest).path[i])
    decreases |rest|
  {
    if rest != "" {
      BracketsGive(rest[Find(rest, ']') + 1..]);
    }
  }

  lemma {:induction false} PiecesGive(s: string)
    requires Pieces(Split(s, '.')).Done?
    ensures Printable(Pieces(Split(s, '.')).path)
    decreases |s|
  {
    var i := Find(s, '.');
    var piece := s[..i];
    assert Split(s, '.')[0] == piece;
    var at := Find(piece, '[');
    BracketsGive(piece[at..]);
    assert IsKey(piece[..at]);
    if i < |s| {
      assert Split(s, '.')[1..] == Split(s[i + 1..], '.');
      PiecesGive(s[i + 1..]);
    } else {
      assert Split(s, '.')[1..] == [];
    }
  }

  /** Whatever is accepted is a printable path, so printing and parsing it again changes nothing. */
  lemma ParsedIsPrintable(raw: string)
    requires PathOf(raw).Done?
    ensures Printable(PathOf(raw).path) && PathOf(Print(PathOf(raw).path)) == PathOf(raw)
  {
    if WithoutDot(raw) != "" {
      PiecesGive(WithoutDot(raw));
    }
    RoundTrip(PathOf(raw).path);
  }

  // ---- matching ----

  function ScalarText(value: Value): Option<string> {
    match value
    case String(s) => Some(s)
    case Null => Some("null")
    case Bool(flag) => Some(if flag then "true" else "false")
    case Number(text) => Some(text)
    case _ => None
  }

  function Child(value: Value, segment: Segment): Option<Value> {
    match segment
    case Key(name) => Get(value, name)
    case Index(n) => if value.Array? && n < |value.items| then Some(value.items[n]) else None
    case AnyElement => None
  }

  predicate PathMatches(value: Value, path: Path, expected: string)
    decreases |path|
  {
    if path == [] then ScalarText(value) == Some(expected)
    else if path[0].AnyElement? then
      value.Array? && exists i :: 0 <= i < |value.items| && PathMatches(value.items[i], path[1..], expected)
    else
      var child := Child(value, path[0]);
      child.Some? && PathMatches(child.value, path[1..], expected)
  }

  /** Scalars are compared by the text they are printed with. */
  lemma ScalarTextIff(value: Value, text: string)
    ensures ScalarText(value) == Some(text) <==>
              || value == String(text) || value == Number(text)
              || (value == Null && text == "null") || (value == Bool(true) && text == "true") || (value == Bool(false) && text == "false")
  {
  }

  /** Where a path without wildcards leads. */
  function Reached(value: Value, path: Path): Option<Value>
    decreases |path|
  {
    if path == [] then Some(value)
    else
      match Child(value, path[0])
      case None => None
      case Some(child) => Reached(child, path[1..])
  }

  /** Every wildcard replaced by some index. */
  predicate Instance(path: Path, concrete: Path) {
    && |concrete| == |path|
    && forall i :: 0 <= i < |path| ==> if path[i].AnyElement? then concrete[i].Index? else concrete[i] == path[i]
  }

  predicate Leads(value: Value, path: Path, concrete: Path, expected: string) {
    && Instance(path, concrete)
    && Reached(value, concrete).Some?
    && ScalarText(Reached(value, concrete).value) == Some(expected)
  }

  /** A value matches exactly when some choice of indices for the wildcards leads to a scalar with the expected text. */
  lemma {:induction false} MatchesIff(value: Value, path: Path, expected: string)
    ensures PathMatches(value, path, expected) <==> exists concrete :: Leads(value, path, concrete, expected)
    decreases |path|
  {
    if path == [] {
      assert Leads(value, path, [], expected) <==> PathMatches(value, path, expected);
    } else {
      forall concrete | Leads(value, path, concrete, expected)
        ensures PathMatches(value, path, expected)
      {
        var child := Child(value, concrete[0]).value;
        assert Leads(child, path[1..], concrete[1..], expected);
        MatchesIff(child, path[1..], expected);
      }
      if PathMatches(value, path, expected) {
        var first := path[0];
        if first.AnyElement? {
          var i :| 0 <= i < |value.items| && PathMatches(value.items[i], path[1..], expected);
          first := Index(i);
        }
        var child := Child(value, first).value;
        MatchesIff(child, path[1..], expected);
        var rest :| Leads(child, path[1..], rest, expected);
        var concrete := [first] + rest;
        assert concrete[1..] == rest;
        assert Leads(value, path, concrete, expected);
      }
    }
  }
}
