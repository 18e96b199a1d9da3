/**
 The scanner that takes tool calls out of scripts: it finds `tools.name(` and cuts the first
 argument by counting brackets and skipping quoted text, without parsing the language.
 */
module JsScanner {
  import opened Wrappers
  import opened Json
  import opened Text
  import Projection

  predicate IsQuote(c: char) {
    c == '"' || c == '\'' || c == '`'
  }

  predicate IsOpen(c: char) {
    c == '{' || c == '['
  }

  predicate IsClose(c: char) {
    c == '}' || c == ']'
  }

  function OpenOf(c: char): char {
    if c == '}' then '{' else '['
  }

  function CloseOf(c: char): char {
    if c == '{' then '}' else ']'
  }

  // ---- the first argument ----

  datatype Scan = Scan(stack: seq<char>, quote: Option<char>, escaped: bool)

  const START := Scan([], None, false)

  function Popped(stack: seq<char>): seq<char> {
    if stack == [] then [] else stack[..|stack| - 1]
  }

  /** The scanner's state after a character, or that the argument ends with it. A closing bracket pops whatever is open. */
  function Step(s: Scan, c: char): (Scan, bool) {
    if s.quote.Some? then
      if s.escaped then (s.(escaped := false), false)
      else if c == '\\' then (s.(escaped := true), false)
      else if c == s.quote.value then (s.(quote := None), s.stack == [])
      else (s, false)
    else if IsQuote(c) then (s.(quote := Some(c)), false)
    else if IsOpen(c) then (s.(stack := s.stack + [c]), false)
    else if IsClose(c) then
      (s.(stack := Popped(s.stack)), |s.stack| == 1 && s.stack[0] == OpenOf(c))
    else (s, false)
  }

  /** How many characters the argument takes, if it ends. */
  function ArgumentEnd(s: Scan, input: string): Option<nat>
    decreases |input|
  {
    if input == "" then None
    else
      var step := Step(s, input[0]);
      if step.1 then Some(1) else Shifted(1, ArgumentEnd(step.0, input[1..]))
  }

  function Shifted(n: nat, end: Option<nat>): Option<nat> {
    match end
    case None => None
    case Some(k) => Some(n + k)
  }

  lemma {:induction false} EndWithin(s: Scan, input: string)
    ensures ArgumentEnd(s, input).Some? ==> 0 < ArgumentEnd(s, input).value <= |input|
    decreases |input|
  {
    if input != "" {
      EndWithin(Step(s, input[0]).0, input[1..]);
    }
  }

  /** The length of the prefix before the first comma or closing parenthesis. */
  function BareEnd(input: string): (n: nat)
    ensures n <= |input|
    ensures forall i :: 0 <= i < n ==> input[i] != ',' && input[i] != ')'
    ensures n < |input| ==> input[n] == ',' || input[n] == ')'
  {
    if input == "" || input[0] == ',' || input[0] == ')' then 0 else 1 + BareEnd(input[1..])
  }

  function FirstArgument(input: string): Option<string> {
    var trimmed := TrimStart(input);
    if trimmed == "" then None
    else if !IsOpen(trimmed[0]) && !IsQuote(trimmed[0]) then Some(trimmed[..BareEnd(trimmed)])
    else
      match ArgumentEnd(START, trimmed)
      case None => None
      case Some(end) => EndWithin(START, trimmed); Some(trimmed[..end])
  }

  method FirstJsArgument(input: string) returns (argument: Option<string>)
    ensures argument == FirstArgument(input)
  {
    var text := TrimStart(input);
    if text == "" {
      return None;
    }
    if !IsOpen(text[0]) && !IsQuote(text[0]) {
      return Some(text[..BareEnd(text)]);
    }
    var stack: seq<char> := [];
    var quote: Option<char> := None;
    var escaped := false;
    var index := 0;
    assert text[0..] == text;
    while index < |text|
      invariant 0 <= index <= |text|
      invariant ArgumentEnd(START, text) == Shifted(index, ArgumentEnd(Scan(stack, quote, escaped), text[index..]))
    {
      var byte := text[index];
      assert text[index..][0] == byte && text[index..][1..] == text[index + 1..];
      index := index + 1;
      if quote.Some? {
        if escaped {
          escaped := false;
        } else if byte == '\\' {
          escaped := true;
        } else if byte == quote.value {
          quote := None;
          if stack == [] {
            return Some(text[..index]);
          }
        }
        continue;
      }
      if IsQuote(byte) {
        quote := Some(byte);
      } else if IsOpen(byte) {
        stack := stack + [byte];
      } else if IsClose(byte) {
        var popped := if stack == [] then None else Some(stack[|stack| - 1]);
        stack := Popped(stack);
        if popped == Some(OpenOf(byte)) && stack == [] {
          return Some(text[..index]);
        }
      }
    }
    return None;
  }

  // ---- rendered values ----

  datatype QuotedChar = Plain(c: char) | Escaped(c: char)

  /** A nested value: containers of items, quoted text with escapes, and stretches of anything else. */
  datatype Item = Container(open: char, items: Items) | Quoted(quote: char, chars: seq<QuotedChar>) | Atom(text: string)

  datatype Items = Nil | Cons(head: Item, tail: Items)

  predicate WellFormedChar(quote: char, q: QuotedChar) {
    q.Plain? ==> q.c != quote && q.c != '\\'
  }

  predicate WellFormed(item: Item) {
    match item
    case Container(open, items) => IsOpen(open) && AllWellFormed(items)
    case Quoted(quote, chars) => IsQuote(quote) && forall i :: 0 <= i < |chars| ==> WellFormedChar(quote, chars[i])
    case Atom(text) => forall i :: 0 <= i < |text| ==> !IsQuote(text[i]) && !IsOpen(text[i]) && !IsClose(text[i])
  }

  predicate AllWellFormed(items: Items) {
    match items
    case Nil => true
    case Cons(head, tail) => WellFormed(head) && AllWellFormed(tail)
  }

  function RenderChar(q: QuotedChar): string {
    if q.Plain? then [q.c] else ['\\', q.c]
  }

  function RenderChars(chars: seq<QuotedChar>): string {
    if chars == [] then "" else RenderChar(chars[0]) + RenderChars(chars[1..])
  }

  function Render(item: Item): string {
    match item
    case Container(open, items) => [open] + RenderAll(items) + [CloseOf(open)]
    case Quoted(quote, chars) => [quote] + RenderChars(chars) + [quote]
    case Atom(text) => text
  }

  function RenderAll(items: Items): string {
    match items
    case Nil => ""
    case Cons(head, tail) => Render(head) + RenderAll(tail)
  }

  // ---- the scanner on rendered values ----

  lemma ScanOne(s: Scan, c: char, rest: string)
    requires !Step(s, c).1
    ensures ArgumentEnd(s, [c] + rest) == Shifted(1, ArgumentEnd(Step(s, c).0, rest))
  {
    assert ([c] + rest)[1..] == rest;
  }

  lemma ScanQuotedChar(stack: seq<char>, quote: char, q: QuotedChar, more: string)
    requires IsQuote(quote) && WellFormedChar(quote, q)
    ensures ArgumentEnd(Scan(stack, Some(quote), false), RenderChar(q) + more)
         == Shifted(|RenderChar(q)|, ArgumentEnd(Scan(stack, Some(quote), false), more))
  {
    var s := Scan(stack, Some(quote), false);
    if q.Plain? {
      ScanOne(s, q.c, more);
    } else {
      assert RenderChar(q) + more == ['\\'] + ([q.c] + more);
      ScanOne(s, '\\', [q.c] + more);
      ScanOne(s.(escaped := true), q.c, more);
    }
  }

  lemma {:induction false} ScanChars(stack: seq<char>, quote: char, chars: seq<QuotedChar>, rest: string)
    requires IsQuote(quote) && forall i :: 0 <= i < |chars| ==> WellFormedChar(quote, chars[i])
    ensures ArgumentEnd(Scan(stack, Some(quote), false), RenderChars(chars) + rest)
         == Shifted(|RenderChars(chars)|, ArgumentEnd(Scan(stack, Some(quote), false), rest))
    decreases |chars|
  {
    if chars == [] {
      assert "" + rest == rest;
    } else {
      var q, others := chars[0], RenderChars(chars[1..]);
      assert RenderChars(chars) + rest == RenderChar(q) + (others + rest);
      ScanChars(stack, quote, chars[1..], rest);
      assert WellFormedChar(quote, q);
      ScanQuotedChar(stack, quote, q, others + rest);
    }
  }

  lemma {:induction false} ScanAtom(stack: seq<char>, text: string, rest: string)
    requires WellFormed(Atom(text))
    ensures ArgumentEnd(Scan(stack, None, false), text + rest)
         == Shifted(|text|, ArgumentEnd(Scan(stack, None, false), rest))
    decreases |text|
  {
    if text == "" {
      assert "" + rest == rest;
    } else {
      assert text + rest == [text[0]] + (text[1..] + rest);
      ScanOne(Scan(stack, None, false), text[0], text[1..] + rest);
      ScanAtom(stack, text[1..], rest);
    }
  }

  lemma ScanQuoted(stack: seq<char>, quote: char, chars: seq<QuotedChar>, rest: string)
    requires WellFormed(Quoted(quote, chars))
    ensures
      var end := ArgumentEnd(Scan(stack, None, false), Render(Quoted(quote, chars)) + rest);
      var length := |Render(Quoted(quote, chars))|;
      end == if stack == [] then Some(length) else Shifted(length, ArgumentEnd(Scan(stack, None, false), rest))
  {
    var closing := [quote] + rest;
    assert Render(Quoted(quote, chars)) + rest == [quote] + (RenderChars(chars) + closing);
    ScanOne(Scan(stack, None, false), quote, RenderChars(chars) + closing);
    ScanChars(stack, quote, chars, closing);
    assert closing[0] == quote && closing[1..] == rest;
  }

  /** Inside a container the scanner passes over any item and is where it was. */
  lemma {:induction false} ScanItem(stack: seq<char>, item: Item, rest: string)
    requires WellFormed(item) && stack != []
    ensures ArgumentEnd(Scan(stack, None, false), Render(item) + rest)
         == Shifted(|Render(item)|, ArgumentEnd(Scan(stack, None, false), rest))
    decreases item
  {
    match item
    case Quoted(quote, chars) => ScanQuoted(stack, quote, chars, rest);
    case Atom(text) => ScanAtom(stack, text, rest);
    case Container(open, items) =>
      var closing := [CloseOf(open)] + rest;
      assert Render(item) + rest == [open] + (RenderAll(items) + closing);
      ScanOne(Scan(stack, None, false), open, RenderAll(items) + closing);
      ScanItems(stack + [open], items, closing);
      ScanOne(Scan(stack + [open], None, false), CloseOf(open), rest);
      assert Popped(stack + [open]) == stack;
  }

  lemma {:induction false} ScanItems(stack: seq<char>, items: Items, rest: string)
    requires AllWellFormed(items) && stack != []
    ensures ArgumentEnd(Scan(stack, None, false), RenderAll(items) + rest)
         == Shifted(|RenderAll(items)|, ArgumentEnd(Scan(stack, None, false), rest))
    decreases items
  {
    match items
    case Nil => assert "" + rest == rest;
    case Cons(head, tail) =>
      assert RenderAll(items) + rest == Render(head) + (RenderAll(tail) + rest);
      ScanItem(stack, head, RenderAll(tail) + rest);
      ScanItems(stack, tail, rest);
  }

  /** Whatever follows it, a container or a quoted text is cut out exactly as it was written. */
  lemma RenderedArgument(spaces: string, item: Item, rest: string)
    requires WellFormed(item) && !item.Atom?
    requires AreSpaces(spaces)
    ensures FirstArgument(spaces + Render(item) + rest) == Some(Render(item))
  {
    var text := Render(item) + rest;
    assert spaces + Render(item) + rest == spaces + text;
    TrimmedOf(spaces, text);
    match item
    case Quoted(quote, chars) => ScanQuoted([], quote, chars, rest);
    case Container(open, items) => ScanContainer(open, items, rest);
    assert text[..|Render(item)|] == Render(item);
  }

  lemma ScanContainer(open: char, items: Items, rest: string)
    requires WellFormed(Container(open, items))
    ensures
      var item := Container(open, items);
      ArgumentEnd(START, Render(item) + rest) == Some(|Render(item)|)
  {
    var closing := [CloseOf(open)] + rest;
    assert Render(Container(open, items)) + rest == [open] + (RenderAll(items) + closing);
    ScanOne(START, open, RenderAll(items) + closing);
    assert [] + [open] == [open];
    ScanItems([open], items, closing);
    assert Step(Scan([open], None, false), closing[0]).1;
  }

  /** A bare argument reaches up to the comma or parenthesis that ends it. */
  lemma BareArgument(text: string, rest: string)
    requires text != "" && !IsSpace(text[0]) && !IsOpen(text[0]) && !IsQuote(text[0])
    requires forall i :: 0 <= i < |text| ==> text[i] != ',' && text[i] != ')'
    requires rest == "" || rest[0] == ',' || rest[0] == ')'
    ensures FirstArgument(text + rest) == Some(text)
  {
    var all := text + rest;
    TrimmedOf("", all);
    assert "" + all == all;
    var n := BareEnd(all);
    assert n >= |text| by {
      assert forall i :: 0 <= i < |text| ==> all[i] == text[i];
    }
    if rest != "" {
      assert all[|text|] == rest[0];
    }
    assert all[..|text|] == text;
  }

  // ---- embedded calls ----

  const MARKER := "tools."

  predicate IsNameChar(c: char) {
    'a' <= c <= 'z' || 'A' <= c <= 'Z' || '0' <= c <= '9' || c == '_'
  }

  function NameLength(s: string): (n: nat)
    ensures n <= |s|
    ensures forall i :: 0 <= i < n ==> IsNameChar(s[i])
    ensures n < |s| ==> !IsNameChar(s[n])
  {
    if s == "" || !IsNameChar(s[0]) then 0 else 1 + NameLength(s[1..])
  }

  predicate MarkedAt(input: string, p: nat) {
    p + |MARKER| <= |input| && input[p..p + |MARKER|] == MARKER
  }

  /** The first marker at or after an offset. */
  function FindMarker(input: string, offset: nat): (p: Option<nat>)
    requires offset <= |input|
    ensures p.Some? ==> offset <= p.value && MarkedAt(input, p.value)
    ensures p.Some? ==> forall q :: offset <= q < p.value ==> !MarkedAt(input, q)
    ensures p.None? ==> forall q :: offset <= q ==> !MarkedAt(input, q)
    decreases |input| - offset
  {
    if MarkedAt(input, offset) then Some(offset)
    else if offset == |input| then None
    else FindMarker(input, offset + 1)
  }

  datatype Call = Call(at: nat, name: string, argument: string)

  function NameAt(input: string, p: nat): string
    requires MarkedAt(input, p)
  {
    var rest := input[p + |MARKER|..];
    rest[..NameLength(rest)]
  }

  /** What follows the name and any space after it. */
  function AfterName(input: string, p: nat): string
    requires MarkedAt(input, p)
  {
    var rest := input[p + |MARKER|..];
    TrimStart(rest[NameLength(rest)..])
  }

  /** A marker, a name and an opening parenthesis. */
  predicate IsCallAt(input: string, p: nat) {
    MarkedAt(input, p) && NameAt(input, p) != "" && AfterName(input, p) != "" && AfterName(input, p)[0] == '('
  }

  function CallAt(input: string, p: nat): Call
    requires IsCallAt(input, p)
  {
    var arguments := AfterName(input, p)[1..];
    Call(p, NameAt(input, p), Trim(OrElse(FirstArgument(arguments), arguments)))
  }

  /** Where the name at a marker ends, and the search goes on. */
  function EndAt(input: string, p: nat): (end: nat)
    requires MarkedAt(input, p)
    ensures p < end <= |input|
  {
    p + |MARKER| + |NameAt(input, p)|
  }

  function CallsAt(input: string, p: nat): seq<Call>
    requires MarkedAt(input, p)
  {
    if IsCallAt(input, p) then [CallAt(input, p)] else []
  }

  function EmbeddedFrom(input: string, offset: nat): seq<Call>
    requires offset <= |input|
    decreases |input| - offset
  {
    var found := FindMarker(input, offset);
    if found.None? then []
    else CallsAt(input, found.value) + EmbeddedFrom(input, EndAt(input, found.value))
  }

  /** The call at a marker, if it is one, and where to look for the next. */
  method ReadCall(input: string, at: nat) returns (call: Option<Call>, next: nat)
    requires MarkedAt(input, at)
    ensures (if call.Some? then [call.value] else []) == CallsAt(input, at)
    ensures next == EndAt(input, at)
  {
    var start := at + |MARKER|;
    var rest := input[start..];
    var nameLength := NameLength(rest);
    if nameLength == 0 {
      return None, start;
    }
    var name := rest[..nameLength];
    next := start + nameLength;
    var afterName := TrimStart(rest[nameLength..]);
    if afterName == "" || afterName[0] != '(' {
      return None, next;
    }
    var argument := FirstJsArgument(afterName[1..]);
    call := Some(Call(at, name, Trim(if argument.Some? then argument.value else afterName[1..])));
  }

  method EmbeddedToolCalls(input: string) returns (calls: seq<Call>)
    ensures calls == EmbeddedFrom(input, 0)
  {
    calls := [];
    var offset := 0;
    while true
      invariant 0 <= offset <= |input|
      invariant EmbeddedFrom(input, 0) == calls + EmbeddedFrom(input, offset)
      decreases |input| - offset
    {
      var found := FindMarker(input, offset);
      if found.None? {
        assert calls + [] == calls;
        return;
      }
      var call, next := ReadCall(input, found.value);
      Associates(calls, CallsAt(input, found.value), EmbeddedFrom(input, next));
      if call.Some? {
        calls := calls + [call.value];
      } else {
        assert calls + [] == calls;
      }
      offset := next;
    }
  }

  lemma Associates(a: seq<Call>, b: seq<Call>, c: seq<Call>)
    ensures a + (b + c) == (a + b) + c
  {
  }

  lemma CallsAtAre(input: string, p: nat)
    requires MarkedAt(input, p)
    ensures |CallsAt(input, p)| <= 1
    ensures |CallsAt(input, p)| == 1 <==> IsCallAt(input, p)
    ensures IsCallAt(input, p) ==> CallsAt(input, p)[0] == CallAt(input, p)
    ensures IsCallAt(input, p) ==> CallAt(input, p).at == p && p + |MARKER| + |CallAt(input, p).name| == EndAt(input, p)
  {
  }

  /** A reported call, at or after an offset. */
  predicate Genuine(input: string, offset: nat, call: Call) {
    offset <= call.at && IsCallAt(input, call.at) && call == CallAt(input, call.at)
  }

  predicate Ordered(calls: seq<Call>) {
    forall i, j :: 0 <= i < j < |calls| ==> calls[i].at + |MARKER| + |calls[i].name| <= calls[j].at
  }

  /** Every call reported stands where it says and reads as it says, at strictly increasing places. */
  lemma {:induction false} ReportedAreCalls(input: string, offset: nat)
    requires offset <= |input|
    ensures forall call :: call in EmbeddedFrom(input, offset) ==> Genuine(input, offset, call)
    ensures Ordered(EmbeddedFrom(input, offset))
    decreases |input| - offset
  {
    var found := FindMarker(input, offset);
    if found.Some? {
      var next := EndAt(input, found.value);
      var first, later := CallsAt(input, found.value), EmbeddedFrom(input, next);
      ReportedAreCalls(input, next);
      CallsAtAre(input, found.value);
      AllFrom(input, next, later);
      OrderedPrepend(first, later, next);
      forall call | call in first + later
        ensures Genuine(input, offset, call)
      {
        if call in later {
          GenuineEarlier(input, next, offset, call);
        }
      }
    }
  }

  lemma AllFrom(input: string, offset: nat, calls: seq<Call>)
    requires forall call :: call in calls ==> Genuine(input, offset, call)
    ensures forall i :: 0 <= i < |calls| ==> offset <= calls[i].at
  {
    forall i | 0 <= i < |calls|
      ensures offset <= calls[i].at
    {
      assert Genuine(input, offset, calls[i]);
    }
  }

  lemma GenuineEarlier(input: string, from: nat, offset: nat, call: Call)
    requires Genuine(input, from, call) && offset <= from
    ensures Genuine(input, offset, call)
  {
  }

  lemma OrderedPrepend(first: seq<Call>, later: seq<Call>, end: nat)
    requires |first| <= 1 && (first != [] ==> first[0].at + |MARKER| + |first[0].name| == end)
    requires Ordered(later) && forall i :: 0 <= i < |later| ==> end <= later[i].at
    ensures Ordered(first + later)
  {
  }

  /** A marker that begins inside the name at an earlier marker. */
  ghost predicate Covered(input: string, offset: nat, r: nat) {
    exists q :: offset <= q < r && MarkedAt(input, q) && r < EndAt(input, q)
  }

  /** Every call in a script is reported, unless its marker begins inside the name at an earlier marker. */
  lemma {:induction false} CallsAreReported(input: string, offset: nat, r: nat)
    requires offset <= r && IsCallAt(input, r) && !Covered(input, offset, r)
    ensures CallAt(input, r) in EmbeddedFrom(input, offset)
    decreases |input| - offset
  {
    var found := FindMarker(input, offset);
    assert found.Some? && found.value <= r;
    var next := EndAt(input, found.value);
    if found.value < r {
      CallsAreReported(input, next, r);
    } else {
      CallsAtAre(input, r);
    }
  }

  /** A reported call whose first argument is a container or quoted text carries exactly that text. */
  lemma CallCarriesArgument(input: string, p: nat, spaces: string, item: Item, rest: string)
    requires IsCallAt(input, p) && AfterName(input, p)[1..] == spaces + Render(item) + rest
    requires WellFormed(item) && !item.Atom? && forall i :: 0 <= i < |spaces| ==> IsSpace(spaces[i])
    ensures CallAt(input, p).argument == Render(item)
  {
    RenderedArgument(spaces, item, rest);
    var text := Render(item);
    assert !IsSpace(text[0]) && !IsSpace(text[|text| - 1]);
    assert TrimStart(text) == text && TrimEnd(text) == text;
  }

  // ---- what a call looks like ----

  predicate IsWordChar(c: char) {
    c in {'_'} || '0' <= c <= '9' || 'a' <= c <= 'z' || 'A' <= c <= 'Z'
  }

  predicate IsWord(name: string) {
    forall i :: 0 <= i < |name| ==> IsWordChar(name[i])
  }

  lemma {:induction false} NameOf(name: string, tail: string)
    requires IsWord(name) && (tail == "" || !IsWordChar(tail[0]))
    ensures NameLength(name + tail) == |name|
    decreases |name|
  {
    if name == "" {
      assert "" + tail == tail;
    } else {
      assert IsWord(name[1..]);
      NameOf(name[1..], tail);
      assert (name + tail)[1..] == name[1..] + tail && IsNameChar(name[0]);
    }
  }

  /** A call is "tools.", a name, an opening parenthesis after any white space, and nothing less. */
  lemma IsCallIff(input: string, p: nat, name: string, blank: string, rest: string)
    requires p <= |input| && IsWord(name) && AreSpaces(blank) && (rest == "" || !IsSpace(rest[0]))
    requires blank + rest == "" || !IsWordChar((blank + rest)[0])
    requires input[p..] == "tools." + (name + (blank + rest))
    ensures IsCallAt(input, p) <==> name != "" && rest != "" && rest[0] == '('
    ensures IsCallAt(input, p) ==> CallAt(input, p).at == p && CallAt(input, p).name == name
  {
    var tail := blank + rest;
    assert input[p..p + |MARKER|] == input[p..][..|MARKER|] == MARKER;
    assert input[p + |MARKER|..] == input[p..][|MARKER|..] == name + tail;
    NameOf(name, tail);
    assert (name + tail)[..|name|] == name && (name + tail)[|name|..] == tail;
    TrimmedOf(blank, rest);
  }

  lemma CallsAreMarked(input: string, p: nat)
    requires IsCallAt(input, p)
    ensures p <= |input| && "tools." <= input[p..]
  {
    assert input[p..][..|MARKER|] == input[p..p + |MARKER|];
  }

  /** Quotes, and brackets with their partners. */
  lemma Delimiters(c: char)
    ensures IsQuote(c) <==> c in {'"', '\'', '`'}
    ensures IsOpen(c) <==> c in {'{', '['}
    ensures IsClose(c) <==> c in {'}', ']'}
    ensures OpenOf('}') == '{' && OpenOf(']') == '[' && CloseOf('{') == '}' && CloseOf('[') == ']'
  {
  }

  // ---- the parser the projection uses ----

  function Values(relaxed: string -> Option<Value>, calls: seq<Call>): seq<(string, Value)> {
    seq(|calls|, i requires 0 <= i < |calls| =>
      (calls[i].name, OrElse(relaxed(calls[i].argument), Object(map["input" := String(calls[i].argument)]))))
  }

  function ToolParser(relaxed: string -> Option<Value>): Projection.Parser {
    Projection.Parser(script => Values(relaxed, EmbeddedFrom(script, 0)), relaxed)
  }

  /** Every call of a script is parsed with its argument, which is kept as text where it cannot be read. */
  lemma ScriptInputs(relaxed: string -> Option<Value>, script: string, i: nat)
    requires i < |EmbeddedFrom(script, 0)|
    ensures
      var calls, parsed := EmbeddedFrom(script, 0), ToolParser(relaxed).embedded(script);
      && |parsed| == |calls| && parsed[i].0 == calls[i].name
      && match relaxed(calls[i].argument)
         case Some(value) => parsed[i].1 == value
         case None => parsed[i].1 == Object(map["input" := String(calls[i].argument)])
  {
  }
}
