/**
 The bounded framer of the ACP stream: frames end with a newline, with one carriage return
 before it dropped, and a frame of more than `maximum` bytes is refused without being held.
 */
module Wire {
  import opened Wrappers
  import opened Jsonl

  datatype FrameError = TooLong | UnexpectedEof | NotUtf8

  /** One read: a frame, the clean end of the stream, or an error. */
  type Read = Result<Option<seq<Byte>>, FrameError>

  // ---- what a stream means, whatever its chunks ----

  /** The frames of a stream with their newlines, and the unterminated bytes after the last newline. */
  datatype Cut = Cut(frames: seq<seq<Byte>>, tail: seq<Byte>)

  predicate IsFrame(frame: seq<Byte>) {
    && frame != [] && frame[|frame| - 1] == NEWLINE
    && forall i :: 0 <= i < |frame| - 1 ==> frame[i] != NEWLINE
  }

  predicate IsTail(tail: seq<Byte>) {
    forall i :: 0 <= i < |tail| ==> tail[i] != NEWLINE
  }

  predicate WellCut(cut: Cut) {
    (forall i :: 0 <= i < |cut.frames| ==> IsFrame(cut.frames[i])) && IsTail(cut.tail)
  }

  function Concat(chunks: seq<seq<Byte>>): seq<Byte> {
    if chunks == [] then [] else chunks[0] + Concat(chunks[1..])
  }

  function Joined(cut: Cut): seq<Byte> {
    Concat(cut.frames) + cut.tail
  }

  /** A frame as it is handed over: without its newline and without one carriage return before it. */
  function Stripped(frame: seq<Byte>): seq<Byte>
    requires frame != []
  {
    WithoutReturn(frame[..|frame| - 1])
  }

  // ---- one read ----

  function NextFrame(bytes: seq<Byte>, maximum: nat, isText: seq<Byte> -> bool): Read {
    var i := Find(bytes);
    if i == |bytes| then
      if bytes == [] then Success(None)
      else if |bytes| > maximum then Failure(TooLong)
      else Failure(UnexpectedEof)
    else if i + 1 > maximum then Failure(TooLong)
    else
      var line := WithoutReturn(bytes[..i]);
      if isText(line) then Success(Some(line)) else Failure(NotUtf8)
  }

  function AfterFrame(bytes: seq<Byte>): seq<Byte> {
    var i := Find(bytes);
    if i == |bytes| then [] else bytes[i + 1..]
  }

  /** The frames read before the stream ends, and how it ends: cleanly or with the first error. */
  datatype Transcript = Transcript(lines: seq<seq<Byte>>, error: Option<FrameError>)

  function Transcribed(bytes: seq<Byte>, maximum: nat, isText: seq<Byte> -> bool): Transcript
    decreases |bytes|
  {
    match NextFrame(bytes, maximum, isText)
    case Failure(e) => Transcript([], Some(e))
    case Success(None) => Transcript([], None)
    case Success(Some(line)) =>
      var rest := Transcribed(AfterFrame(bytes), maximum, isText);
      rest.(lines := [line] + rest.lines)
  }

  // ---- the reader ----

  /** A buffered reader: the bytes buffered and the non-empty chunks still to arrive. */
  class Reader {
    var buffer: seq<Byte>
    var chunks: seq<seq<Byte>>

    ghost predicate Valid()
      reads this
    {
      forall i :: 0 <= i < |chunks| ==> chunks[i] != []
    }

    ghost function Remaining(): seq<Byte>
      reads this
    {
      buffer + Concat(chunks)
    }

    constructor (chunks: seq<seq<Byte>>)
      requires forall i :: 0 <= i < |chunks| ==> chunks[i] != []
      ensures Valid() && Remaining() == Concat(chunks)
    {
      buffer := [];
      this.chunks := chunks;
    }

    method FillBuf() returns (available: seq<Byte>)
      requires Valid()
      modifies this
      ensures Valid() && Remaining() == old(Remaining())
      ensures available == buffer && (available == [] ==> Remaining() == [])
    {
      if buffer == [] && chunks != [] {
        assert Concat(chunks) == chunks[0] + Concat(chunks[1..]);
        buffer, chunks := chunks[0], chunks[1..];
      }
      available := buffer;
    }

    method Consume(count: nat)
      requires Valid() && count <= |buffer|
      modifies this
      ensures Valid() && Remaining() == old(Remaining())[count..]
    {
      buffer := buffer[count..];
    }

    static method Finish(frame: seq<Byte>, isText: seq<Byte> -> bool) returns (read: Read)
      requires frame != [] && frame[|frame| - 1] == NEWLINE
      ensures read == if isText(Stripped(frame)) then Success(Some(Stripped(frame))) else Failure(NotUtf8)
    {
      var line := frame[..|frame| - 1];
      if line != [] && line[|line| - 1] == RETURN {
        line := line[..|line| - 1];
      }
      return if isText(line) then Success(Some(line)) else Failure(NotUtf8);
    }

    /** Reads one frame; what it answers and leaves depends on the bytes alone, not on how they are chunked. */
    method ReadBoundedLine(maximum: nat, isText: seq<Byte> -> bool) returns (read: Read)
      requires Valid()
      modifies this
      ensures Valid() && read == NextFrame(old(Remaining()), maximum, isText)
      ensures read.Success? ==> Remaining() == AfterFrame(old(Remaining()))
    {
      var line: seq<Byte> := [];
      ghost var all := Remaining();
      ghost var rest := all;
      while true
        invariant Valid() && Remaining() == rest && all == line + rest
        invariant IsTail(line) && |line| <= maximum
        decreases |rest|
      {
        var available := FillBuf();
        if available == [] {
          assert all == line;
          NextOfTail(line, maximum, isText);
          return if line == [] then Success(None) else Failure(UnexpectedEof);
        }
        var index := Find(available);
        var take := if index < |available| then index + 1 else |available|;
        ghost var later := Concat(chunks);
        assert rest == available + later;
        GrownLine(line, available, take, later, all);
        if |line| + take > maximum {
          NextOfOverlong(all, |line| + take, maximum, isText);
          return Failure(TooLong);
        }
        line := line + available[..take];
        rest := rest[take..];
        Consume(take);
        if line[|line| - 1] == NEWLINE {
          NextOfFrame(line, rest, maximum, isText);
          read := Finish(line, isText);
          return;
        }
      }
    }

    /** The reading thread: it hands over frames until the stream ends or one is refused. */
    method ReadAll(maximum: nat, isText: seq<Byte> -> bool) returns (all: Transcript)
      requires Valid()
      modifies this
      ensures all == Transcribed(old(Remaining()), maximum, isText)
    {
      var lines: seq<seq<Byte>> := [];
      ghost var bytes := Remaining();
      while true
        invariant Valid()
        invariant Transcribed(bytes, maximum, isText) == Preceded(lines, Transcribed(Remaining(), maximum, isText))
        decreases |Remaining()|
      {
        ghost var before := Remaining();
        var read := ReadBoundedLine(maximum, isText);
        match read {
          case Failure(e) =>
            assert lines + [] == lines;
            return Transcript(lines, Some(e));
          case Success(None) =>
            assert lines + [] == lines;
            return Transcript(lines, None);
          case Success(Some(line)) =>
            PrecededBy(lines, line, Transcribed(Remaining(), maximum, isText));
            lines := lines + [line];
        }
      }
    }
  }

  function Preceded(lines: seq<seq<Byte>>, rest: Transcript): Transcript {
    rest.(lines := lines + rest.lines)
  }

  lemma PrecededBy(lines: seq<seq<Byte>>, line: seq<Byte>, rest: Transcript)
    ensures Preceded(lines, rest.(lines := [line] + rest.lines)) == Preceded(lines + [line], rest)
  {
    assert lines + ([line] + rest.lines) == lines + [line] + rest.lines;
  }

  lemma FindIs(bytes: seq<Byte>, i: nat)
    requires i < |bytes| && bytes[i] == NEWLINE && IsTail(bytes[..i])
    ensures Find(bytes) == i
  {
    assert forall j :: 0 <= j < i ==> bytes[..i][j] == bytes[j];
  }

  /** A chunk up to its first newline extends an unterminated line to a frame or to a longer one. */
  lemma GrownLine(line: seq<Byte>, chunk: seq<Byte>, take: nat, later: seq<Byte>, all: seq<Byte>)
    requires IsTail(line) && chunk != [] && all == line + (chunk + later)
    requires take == if Find(chunk) < |chunk| then Find(chunk) + 1 else |chunk|
    ensures
      var grown := line + chunk[..take];
      && grown != [] && |grown| == |line| + take
      && all == grown + (chunk + later)[take..]
      && IsTail(all[..|grown| - 1])
      && if grown[|grown| - 1] == NEWLINE then IsFrame(grown) else IsTail(grown)
  {
    var grown := line + chunk[..take];
    forall i | 0 <= i < |grown| - 1
      ensures grown[i] != NEWLINE && all[i] == grown[i]
    {
      if i >= |line| {
        assert chunk[i - |line|] == grown[i];
      }
    }
  }

  // ---- the framing theorem ----

  /** A terminated frame that is handed over. */
  predicate Accepted(frame: seq<Byte>, maximum: nat, isText: seq<Byte> -> bool)
    requires frame != []
  {
    |frame| <= maximum && isText(Stripped(frame))
  }

  lemma NextOfFrame(frame: seq<Byte>, rest: seq<Byte>, maximum: nat, isText: seq<Byte> -> bool)
    requires IsFrame(frame)
    ensures AfterFrame(frame + rest) == rest
    ensures NextFrame(frame + rest, maximum, isText) ==
            if |frame| > maximum then Failure(TooLong)
            else if isText(Stripped(frame)) then Success(Some(Stripped(frame)))
            else Failure(NotUtf8)
  {
    var bytes := frame + rest;
    assert bytes[|frame| - 1] == NEWLINE && bytes[..|frame| - 1] == frame[..|frame| - 1];
    FindIs(bytes, |frame| - 1);
  }

  lemma NextOfTail(tail: seq<Byte>, maximum: nat, isText: seq<Byte> -> bool)
    requires IsTail(tail)
    ensures NextFrame(tail, maximum, isText) ==
            if tail == [] then Success(None) else if |tail| > maximum then Failure(TooLong) else Failure(UnexpectedEof)
  {
  }

  lemma NextOfOverlong(bytes: seq<Byte>, n: nat, maximum: nat, isText: seq<Byte> -> bool)
    requires maximum < n <= |bytes| && IsTail(bytes[..n - 1])
    ensures NextFrame(bytes, maximum, isText) == Failure(TooLong)
  {
    assert forall j :: 0 <= j < n - 1 ==> bytes[..n - 1][j] == bytes[j];
  }

  /** How many frames are handed over before the first that is refused. */
  function AcceptedCount(frames: seq<seq<Byte>>, maximum: nat, isText: seq<Byte> -> bool): (n: nat)
    requires forall i :: 0 <= i < |frames| ==> frames[i] != []
    ensures n <= |frames|
    ensures forall i :: 0 <= i < n ==> Accepted(frames[i], maximum, isText)
    ensures n < |frames| ==> !Accepted(frames[n], maximum, isText)
  {
    if frames == [] || !Accepted(frames[0], maximum, isText) then 0
    else 1 + AcceptedCount(frames[1..], maximum, isText)
  }

  /** How reading ends after the frames handed over. */
  function Ending(cut: Cut, n: nat, maximum: nat): Option<FrameError> {
    if n < |cut.frames| then Some(if |cut.frames[n]| > maximum then TooLong else NotUtf8)
    else if cut.tail == [] then None
    else Some(if |cut.tail| > maximum then TooLong else UnexpectedEof)
  }

  lemma TranscribedFrame(frame: seq<Byte>, rest: seq<Byte>, maximum: nat, isText: seq<Byte> -> bool)
    requires IsFrame(frame)
    ensures Transcribed(frame + rest, maximum, isText) ==
            if Accepted(frame, maximum, isText) then Preceded([Stripped(frame)], Transcribed(rest, maximum, isText))
            else Transcript([], Some(if |frame| > maximum then TooLong else NotUtf8))
  {
    NextOfFrame(frame, rest, maximum, isText);
  }

  function HandedOver(frames: seq<seq<Byte>>, maximum: nat, isText: seq<Byte> -> bool): seq<seq<Byte>>
    requires forall i :: 0 <= i < |frames| ==> frames[i] != []
  {
    if frames == [] || !Accepted(frames[0], maximum, isText) then []
    else [Stripped(frames[0])] + HandedOver(frames[1..], maximum, isText)
  }

  function EndingOf(frames: seq<seq<Byte>>, tail: seq<Byte>, maximum: nat, isText: seq<Byte> -> bool): Option<FrameError>
    requires forall i :: 0 <= i < |frames| ==> frames[i] != []
  {
    if frames == [] then (if tail == [] then None else Some(if |tail| > maximum then TooLong else UnexpectedEof))
    else if !Accepted(frames[0], maximum, isText) then Some(if |frames[0]| > maximum then TooLong else NotUtf8)
    else EndingOf(frames[1..], tail, maximum, isText)
  }

  lemma {:induction false} HandedOverAre(frames: seq<seq<Byte>>, tail: seq<Byte>, maximum: nat, isText: seq<Byte> -> bool)
    requires forall i :: 0 <= i < |frames| ==> frames[i] != []
    ensures |HandedOver(frames, maximum, isText)| == AcceptedCount(frames, maximum, isText)
    ensures forall i :: 0 <= i < AcceptedCount(frames, maximum, isText) ==>
              HandedOver(frames, maximum, isText)[i] == Stripped(frames[i])
    ensures EndingOf(frames, tail, maximum, isText) == Ending(Cut(frames, tail), AcceptedCount(frames, maximum, isText), maximum)
    decreases |frames|
  {
    if frames != [] && Accepted(frames[0], maximum, isText) {
      HandedOverAre(frames[1..], tail, maximum, isText);
    }
  }

  lemma {:induction false} TranscribedCut(cut: Cut, maximum: nat, isText: seq<Byte> -> bool)
    requires WellCut(cut)
    ensures Transcribed(Joined(cut), maximum, isText) ==
            Transcript(HandedOver(cut.frames, maximum, isText), EndingOf(cut.frames, cut.tail, maximum, isText))
    decreases |cut.frames|
  {
    if cut.frames == [] {
      assert Joined(cut) == cut.tail;
      NextOfTail(cut.tail, maximum, isText);
    } else {
      var rest := Cut(cut.frames[1..], cut.tail);
      assert Joined(cut) == cut.frames[0] + Joined(rest);
      TranscribedFrame(cut.frames[0], Joined(rest), maximum, isText);
      TranscribedCut(rest, maximum, isText);
    }
  }

  /**
   Reading a stream hands over, in order, the stripped frames before the first refused one.
   It ends cleanly exactly when no frame is refused and nothing follows the last newline;
   with "too long" exactly when the next frame, or the unterminated tail, exceeds the maximum;
   and with "unexpected end" exactly for a shorter non-empty tail.
   */
  lemma FramesOfStream(cut: Cut, maximum: nat, isText: seq<Byte> -> bool)
    requires WellCut(cut)
    ensures
      var t := Transcribed(Joined(cut), maximum, isText);
      var n := AcceptedCount(cut.frames, maximum, isText);
      && |t.lines| == n
      && (forall i :: 0 <= i < n ==> t.lines[i] == Stripped(cut.frames[i]))
      && (t.error == None <==> n == |cut.frames| && cut.tail == [])
      && (t.error == Some(TooLong) <==>
            if n < |cut.frames| then |cut.frames[n]| > maximum else |cut.tail| > maximum)
      && (t.error == Some(NotUtf8) <==>
            n < |cut.frames| && |cut.frames[n]| <= maximum && !isText(Stripped(cut.frames[n])))
      && (t.error == Some(UnexpectedEof) <==> n == |cut.frames| && 0 < |cut.tail| <= maximum)
  {
    TranscribedCut(cut, maximum, isText);
    HandedOverAre(cut.frames, cut.tail, maximum, isText);
  }

  function CutOf(bytes: seq<Byte>): Cut
    decreases |bytes|
  {
    var i := Find(bytes);
    if i == |bytes| then Cut([], bytes)
    else
      var rest := CutOf(bytes[i + 1..]);
      Cut([bytes[..i + 1]] + rest.frames, rest.tail)
  }

  lemma CutOfStep(bytes: seq<Byte>)
    requires Find(bytes) < |bytes|
    ensures
      var frame, rest := bytes[..Find(bytes) + 1], bytes[Find(bytes) + 1..];
      && IsFrame(frame) && frame + rest == bytes
      && CutOf(bytes) == Cut([frame] + CutOf(rest).frames, CutOf(rest).tail)
  {
  }

  /** Every stream can be cut. */
  lemma {:induction false} CutOfIsCut(bytes: seq<Byte>)
    ensures WellCut(CutOf(bytes)) && Joined(CutOf(bytes)) == bytes
    decreases |bytes|
  {
    if Find(bytes) == |bytes| {
      assert [] + bytes == bytes;
    } else {
      CutOfStep(bytes);
      var frame, rest := bytes[..Find(bytes) + 1], bytes[Find(bytes) + 1..];
      CutOfIsCut(rest);
      CutFrame(frame, CutOf(rest));
    }
  }

  lemma CutFrame(frame: seq<Byte>, rest: Cut)
    requires IsFrame(frame) && WellCut(rest)
    ensures
      var cut := Cut([frame] + rest.frames, rest.tail);
      WellCut(cut) && Joined(cut) == frame + Joined(rest)
  {
    var cut := Cut([frame] + rest.frames, rest.tail);
    assert cut.frames[1..] == rest.frames;
    assert forall i :: 0 < i < |cut.frames| ==> cut.frames[i] == rest.frames[i - 1];
  }

  /** A stream is cut in exactly one way, so the theorem above covers them all. */
  lemma {:induction false} CutIsUnique(cut: Cut)
    requires WellCut(cut)
    ensures CutOf(Joined(cut)) == cut
    decreases |cut.frames|
  {
    var bytes := Joined(cut);
    if cut.frames == [] {
      assert bytes == cut.tail;
      assert Find(bytes) == |bytes|;
    } else {
      var frame, rest := cut.frames[0], Cut(cut.frames[1..], cut.tail);
      assert bytes == frame + Joined(rest);
      assert bytes[..|frame| - 1] == frame[..|frame| - 1];
      FindIs(bytes, |frame| - 1);
      assert bytes[|frame|..] == Joined(rest) && bytes[..|frame|] == frame;
      CutIsUnique(rest);
      assert cut.frames == [frame] + rest.frames;
    }
  }

  // ---- round trip ----

  datatype Message = Message(text: seq<Byte>, crlf: bool)

  function Sent(message: Message): seq<Byte> {
    message.text + (if message.crlf then [RETURN, NEWLINE] else [NEWLINE])
  }

  function Stream(messages: seq<Message>): seq<Byte> {
    if messages == [] then [] else Sent(messages[0]) + Stream(messages[1..])
  }

  function Texts(messages: seq<Message>): seq<seq<Byte>> {
    if messages == [] then [] else [messages[0].text] + Texts(messages[1..])
  }

  /** Sent as one frame; with a bare newline after it, a message must not end with a carriage return of its own. */
  predicate Sendable(message: Message, maximum: nat, isText: seq<Byte> -> bool) {
    && IsTail(message.text) && isText(message.text) && |Sent(message)| <= maximum
    && (message.crlf || message.text == [] || message.text[|message.text| - 1] != RETURN)
  }

  lemma StrippedSent(message: Message, maximum: nat, isText: seq<Byte> -> bool)
    requires Sendable(message, maximum, isText)
    ensures IsFrame(Sent(message)) && Stripped(Sent(message)) == message.text
  {
    var frame := Sent(message);
    if message.crlf {
      assert frame[..|frame| - 1] == message.text + [RETURN];
    } else {
      assert frame[..|frame| - 1] == message.text;
    }
  }

  lemma SentFirst(message: Message, rest: seq<Byte>, maximum: nat, isText: seq<Byte> -> bool)
    requires Sendable(message, maximum, isText)
    ensures Transcribed(Sent(message) + rest, maximum, isText) == Preceded([message.text], Transcribed(rest, maximum, isText))
  {
    StrippedSent(message, maximum, isText);
    TranscribedFrame(Sent(message), rest, maximum, isText);
  }

  /** Every message comes back as it was sent, in order, whichever line ending each was given. */
  lemma {:induction false} RoundTrip(messages: seq<Message>, maximum: nat, isText: seq<Byte> -> bool)
    requires forall i :: 0 <= i < |messages| ==> Sendable(messages[i], maximum, isText)
    ensures Transcribed(Stream(messages), maximum, isText) == Transcript(Texts(messages), None)
    decreases |messages|
  {
    if messages != [] {
      SentFirst(messages[0], Stream(messages[1..]), maximum, isText);
      RoundTrip(messages[1..], maximum, isText);
    }
  }
}
