/**
 The crash-safe JSON-lines journal: append, replay, and the repair that `open` does.

 A file is its bytes and the length known to be on disk; a crash leaves some prefix that
 is at least that long. The encoding of records is a parameter of which only what JSON
 objects guarantee is assumed.
 */
module Jsonl {
  import opened Wrappers

  type Byte = b: nat | b < 256

  const NEWLINE: Byte := 10
  const RETURN: Byte := 13

  datatype Error = NotText | Malformed

  /**
   `isValue` is "parses as any JSON value", `parse` is "parses as a record", `isText` is
   "valid UTF-8".
   */
  datatype Format<!T> = Format(encode: T -> seq<Byte>, isValue: seq<Byte> -> bool,
                               parse: seq<Byte> -> Option<T>, isText: seq<Byte> -> bool)

  predicate IsSpace(b: Byte) {
    9 <= b <= 13 || b == 32
  }

  predicate Blank(line: seq<Byte>) {
    forall i :: 0 <= i < |line| ==> IsSpace(line[i])
  }

  predicate Unbroken(line: seq<Byte>) {
    forall i :: 0 <= i < |line| ==> line[i] != NEWLINE && line[i] != RETURN
  }

  /** An object is printed on one line, reads back as itself, and no proper prefix of it is a value. */
  ghost predicate Lawful<T(!new)>(fmt: Format<T>) {
    forall r: T ::
      var line := fmt.encode(r);
      && Unbroken(line) && !Blank(line)
      && fmt.isText(line) && fmt.isValue(line) && fmt.parse(line) == Some(r)
      && (forall k :: 0 < k < |line| ==> !fmt.isValue(line[..k]))
  }

  // ---- append ----

  function Line<T>(fmt: Format<T>, r: T): seq<Byte> {
    fmt.encode(r) + [NEWLINE]
  }

  /** The bytes of a journal to which exactly these records were appended. */
  function Journal<T>(fmt: Format<T>, rs: seq<T>): seq<Byte> {
    if rs == [] then [] else Journal(fmt, rs[..|rs| - 1]) + Line(fmt, rs[|rs| - 1])
  }

  // ---- replay ----

  function Find(bytes: seq<Byte>): (i: nat)
    ensures i <= |bytes|
    ensures forall j :: 0 <= j < i ==> bytes[j] != NEWLINE
    ensures i < |bytes| ==> bytes[i] == NEWLINE
  {
    if bytes == [] || bytes[0] == NEWLINE then 0 else 1 + Find(bytes[1..])
  }

  function WithoutReturn(line: seq<Byte>): seq<Byte> {
    if line != [] && line[|line| - 1] == RETURN then line[..|line| - 1] else line
  }

  /** The lines of a file; an unterminated last line counts and keeps its carriage return. */
  function Lines(bytes: seq<Byte>): seq<seq<Byte>>
    decreases |bytes|
  {
    if bytes == [] then []
    else
      var i := Find(bytes);
      if i == |bytes| then [bytes] else [WithoutReturn(bytes[..i])] + Lines(bytes[i + 1..])
  }

  function ReplayLines<T>(fmt: Format<T>, lines: seq<seq<Byte>>): Result<seq<T>, Error> {
    if lines == [] then Success([])
    else if !fmt.isText(lines[0]) then Failure(NotText)
    else if Blank(lines[0]) then ReplayLines(fmt, lines[1..])
    else
      match fmt.parse(lines[0])
      case None => if |lines| == 1 then Success([]) else Failure(Malformed)
      case Some(r) =>
        Following([r], ReplayLines(fmt, lines[1..]))
  }

  function Replay<T>(fmt: Format<T>, bytes: seq<Byte>): Result<seq<T>, Error> {
    ReplayLines(fmt, Lines(bytes))
  }

  // ---- repair ----

  /** The end of the last line that is not empty. */
  function TrimmedEnd(bytes: seq<Byte>): (end: nat)
    ensures end <= |bytes|
  {
    if bytes == [] then 0
    else if bytes[|bytes| - 1] == NEWLINE || bytes[|bytes| - 1] == RETURN then TrimmedEnd(bytes[..|bytes| - 1])
    else |bytes|
  }

  /** The start of the line that ends where these bytes do. */
  function LineStart(bytes: seq<Byte>): (start: nat)
    ensures start <= |bytes|
  {
    if bytes == [] then 0
    else if bytes[|bytes| - 1] == NEWLINE then |bytes|
    else LineStart(bytes[..|bytes| - 1])
  }

  /** A last line that is a value is terminated; any other is cut off. */
  function Repaired<T>(fmt: Format<T>, bytes: seq<Byte>): seq<Byte> {
    var end := TrimmedEnd(bytes);
    if end == 0 then bytes
    else
      var start := LineStart(bytes[..end]);
      if fmt.isValue(bytes[start..end])
      then if bytes[|bytes| - 1] == NEWLINE then bytes else bytes + [NEWLINE]
      else bytes[..start]
  }

  // ---- the file, changed in place ----

  class JournalFile<T> {
    const fmt: Format<T>
    var bytes: seq<Byte>
    var synced: nat

    ghost predicate Valid()
      reads this
    {
      synced <= |bytes|
    }

    /** What is left after a crash. */
    constructor (fmt: Format<T>, bytes: seq<Byte>)
      ensures Valid() && this.fmt == fmt && this.bytes == bytes && synced == |bytes|
    {
      this.fmt := fmt;
      this.bytes := bytes;
      synced := |bytes|;
    }

    method Repair()
      modifies this
      ensures bytes == Repaired(fmt, old(bytes))
      ensures synced == if |bytes| < old(synced) then |bytes| else old(synced)
    {
      if bytes == [] {
        synced := 0;
        return;
      }
      var end := |bytes|;
      assert bytes[..end] == bytes;
      while end > 0 && (bytes[end - 1] == NEWLINE || bytes[end - 1] == RETURN)
        invariant 0 <= end <= |bytes|
        invariant TrimmedEnd(bytes) == TrimmedEnd(bytes[..end])
      {
        end := end - 1;
        assert bytes[..end + 1][..end] == bytes[..end];
      }
      assert end == TrimmedEnd(bytes);
      if end > 0 {
        var start := end;
        while start > 0 && bytes[start - 1] != NEWLINE
          invariant 0 <= start <= end
          invariant LineStart(bytes[..end]) == LineStart(bytes[..start])
        {
          start := start - 1;
          assert bytes[..start + 1][..start] == bytes[..start];
        }
        if fmt.isValue(bytes[start..end]) {
          if bytes[|bytes| - 1] != NEWLINE {
            bytes := bytes + [NEWLINE];
          }
        } else {
          bytes := bytes[..start];
        }
      }
      if |bytes| < synced {
        synced := |bytes|;
      }
    }

    method Append(r: T)
      requires Valid()
      modifies this
      ensures Valid() && bytes == old(bytes) + Line(fmt, r) && synced == old(synced)
    {
      var line := fmt.encode(r);
      bytes := bytes + (line + [NEWLINE]);
    }

    method Sync()
      modifies this`synced
      ensures Valid() && synced == |bytes|
    {
      synced := |bytes|;
    }

    method ReplayAll() returns (records: Result<seq<T>, Error>)
      ensures records == Replay(fmt, bytes)
    {
      var lines := Lines(bytes);
      var out: seq<T> := [];
      var number := 0;
      ghost var all := ReplayLines(fmt, lines);
      assert lines[0..] == lines && (all.Success? ==> out + all.value == all.value);
      while number < |lines|
        invariant 0 <= number <= |lines|
        invariant ReplayLines(fmt, lines) == Following(out, ReplayLines(fmt, lines[number..]))
      {
        var line := lines[number];
        ghost var rest := lines[number..];
        assert rest[0] == line && rest[1..] == lines[number + 1..];
        number := number + 1;
        if !fmt.isText(line) {
          return Failure(NotText);
        }
        if !Blank(line) {
          match fmt.parse(line)
          case Some(r) =>
            FollowingCons(out, r, ReplayLines(fmt, lines[number..]));
            out := out + [r];
          case None =>
            if number == |lines| {
              assert out + [] == out;
              return Success(out);
            }
            return Failure(Malformed);
        }
      }
      assert out + [] == out;
      return Success(out);
    }
  }

  function Following<T>(out: seq<T>, result: Result<seq<T>, Error>): Result<seq<T>, Error> {
    match result
    case Failure(e) => Failure(e)
    case Success(rs) => Success(out + rs)
  }

  lemma FollowingCons<T>(out: seq<T>, r: T, result: Result<seq<T>, Error>)
    ensures Following(out, Following([r], result)) == Following(out + [r], result)
  {
    if result.Success? {
      assert out + ([r] + result.value) == out + [r] + result.value;
    }
  }

  // ---- replay reads back what was appended ----

  lemma {:induction false} LinesOfLine(line: seq<Byte>, rest: seq<Byte>)
    requires Unbroken(line)
    ensures Lines(line + [NEWLINE] + rest) == [line] + Lines(rest)
  {
    var all := line + [NEWLINE] + rest;
    assert all[|line|] == NEWLINE;
    assert Find(all) == |line|;
    assert all[..|line|] == line && all[|line| + 1..] == rest;
  }

  lemma {:induction false} JournalCons<T>(fmt: Format<T>, rs: seq<T>)
    requires rs != []
    ensures Journal(fmt, rs) == Line(fmt, rs[0]) + Journal(fmt, rs[1..])
  {
    if |rs| > 1 {
      var front := rs[..|rs| - 1];
      JournalCons(fmt, front);
      assert front[1..] == rs[1..][..|rs| - 2];
    } else {
      assert rs[..0] == [];
    }
  }

  /** A journal replays exactly the records appended to it, in order. */
  lemma {:induction false} ReplayJournal<T(!new)>(fmt: Format<T>, rs: seq<T>)
    requires Lawful(fmt)
    ensures Replay(fmt, Journal(fmt, rs)) == Success(rs)
    decreases |rs|
  {
    if rs != [] {
      JournalCons(fmt, rs);
      LinesOfLine(fmt.encode(rs[0]), Journal(fmt, rs[1..]));
      ReplayJournal(fmt, rs[1..]);
      assert rs == [rs[0]] + rs[1..];
    }
  }

  lemma ReplayOne<T(!new)>(fmt: Format<T>, r: T, rest: seq<Byte>)
    requires Lawful(fmt)
    ensures Replay(fmt, Line(fmt, r) + rest) == Following([r], Replay(fmt, rest))
  {
    LinesOfLine(fmt.encode(r), rest);
    var lines := [fmt.encode(r)] + Lines(rest);
    assert lines[0] == fmt.encode(r) && lines[1..] == Lines(rest);
  }

  lemma FollowingTwice<T>(r: T, rs: seq<T>, result: Result<seq<T>, Error>)
    ensures Following([r], Following(rs, result)) == Following([r] + rs, result)
  {
    if result.Success? {
      assert [r] + (rs + result.value) == [r] + rs + result.value;
    }
  }

  lemma {:induction false} ReplayAfter<T(!new)>(fmt: Format<T>, rs: seq<T>, rest: seq<Byte>)
    requires Lawful(fmt)
    ensures Replay(fmt, Journal(fmt, rs) + rest) == Following(rs, Replay(fmt, rest))
    decreases |rs|
  {
    if rs == [] {
      assert [] + rest == rest;
      var tail := Replay(fmt, rest);
      assert tail.Success? ==> [] + tail.value == tail.value;
    } else {
      JournalCons(fmt, rs);
      var more := Journal(fmt, rs[1..]) + rest;
      assert Journal(fmt, rs) + rest == Line(fmt, rs[0]) + more;
      ReplayOne(fmt, rs[0], more);
      ReplayAfter(fmt, rs[1..], rest);
      FollowingTwice(rs[0], rs[1..], Replay(fmt, rest));
      assert rs == [rs[0]] + rs[1..];
    }
  }

  /** A line of ASCII white space. */
  predicate IsEmptyLine(line: seq<Byte>) {
    forall b :: b in line ==> b in {9, 10, 11, 12, 13, 32}
  }

  /**
   What follows the records of a journal: a line of white space is passed over; any other that is not valid UTF-8 ends the
   replay with an error, and so does one that is not a record, unless it is the last, which is dropped.
   */
  lemma BadLineIff<T(!new)>(fmt: Format<T>, rs: seq<T>, bad: seq<Byte>, rest: seq<Byte>)
    requires Lawful(fmt) && Unbroken(bad)
    ensures
      var replayed := Replay(fmt, Journal(fmt, rs) + (bad + [NEWLINE] + rest));
      && (!fmt.isText(bad) ==> replayed == Failure(NotText))
      && (fmt.isText(bad) && IsEmptyLine(bad) ==> replayed == Following(rs, Replay(fmt, rest)))
      && (fmt.isText(bad) && !IsEmptyLine(bad) && fmt.parse(bad).None? ==>
            replayed == if rest == [] then Success(rs) else Failure(Malformed))
  {
    ReplayAfter(fmt, rs, bad + [NEWLINE] + rest);
    LinesOfLine(bad, rest);
    assert Lines(rest) == [] <==> rest == [];
    assert rs + [] == rs;
    BlankIff(bad);
  }

  lemma BlankIff(line: seq<Byte>)
    ensures Blank(line) <==> IsEmptyLine(line)
  {
    assert Blank(line) <==> forall b :: b in line ==> IsSpace(b);
  }

  // ---- repair after a crash ----

  /** How many of the records are complete in the first `k` bytes of their journal; the last may lack its newline. */
  function Complete<T>(fmt: Format<T>, rs: seq<T>, k: nat): (n: nat)
    ensures n <= |rs|
  {
    if rs == [] then 0
    else if k + 1 >= |Journal(fmt, rs)| then |rs|
    else Complete(fmt, rs[..|rs| - 1], k)
  }

  lemma {:induction false} JournalEnds<T>(fmt: Format<T>, rs: seq<T>)
    ensures Journal(fmt, rs) == [] || Journal(fmt, rs)[|Journal(fmt, rs)| - 1] == NEWLINE
  {
  }

  lemma {:induction false} LastLineStarts(before: seq<Byte>, line: seq<Byte>)
    requires before == [] || before[|before| - 1] == NEWLINE
    requires Unbroken(line)
    ensures LineStart(before + line) == |before|
    decreases |line|
  {
    if line != [] {
      assert (before + line)[..|before + line| - 1] == before + line[..|line| - 1];
      LastLineStarts(before, line[..|line| - 1]);
    } else {
      assert before + line == before;
    }
  }

  /** Repairing a journal whose last line is cut short, or complete with or without its newline. */
  lemma RepairLastLine<T>(fmt: Format<T>, before: seq<Byte>, line: seq<Byte>)
    requires before == [] || before[|before| - 1] == NEWLINE
    requires line != [] && Unbroken(line)
    ensures Repaired(fmt, before + line) == if fmt.isValue(line) then before + line + [NEWLINE] else before
    ensures fmt.isValue(line) ==> Repaired(fmt, before + line + [NEWLINE]) == before + line + [NEWLINE]
  {
    LastLineStarts(before, line);
    var torn := before + line;
    assert torn[..|torn|] == torn && torn[|before|..|torn|] == line && torn[..|before|] == before;
    var whole := torn + [NEWLINE];
    assert whole[..|whole| - 1] == torn;
    assert TrimmedEnd(whole) == |torn|;
    assert whole[..|torn|] == torn && whole[|before|..|torn|] == line;
  }

  lemma CutWithin(before: seq<Byte>, line: seq<Byte>, k: nat)
    requires |before| < k <= |before| + |line| + 1
    ensures (before + (line + [NEWLINE]))[..k] ==
            if k <= |before| + |line| then before + line[..k - |before|] else before + line + [NEWLINE]
  {
  }

  /** The cut falls within or after the last record. */
  lemma RepairTorn<T(!new)>(fmt: Format<T>, front: seq<T>, r: T, k: nat)
    requires Lawful(fmt)
    requires |Journal(fmt, front)| < k <= |Journal(fmt, front)| + |Line(fmt, r)|
    ensures Repaired(fmt, (Journal(fmt, front) + Line(fmt, r))[..k]) ==
            if k < |Journal(fmt, front)| + |fmt.encode(r)| then Journal(fmt, front)
            else Journal(fmt, front) + Line(fmt, r)
  {
    var before, line := Journal(fmt, front), fmt.encode(r);
    JournalEnds(fmt, front);
    CutWithin(before, line, k);
    assert before + line + [NEWLINE] == before + Line(fmt, r);
    if k - |before| < |line| {
      RepairLastLine(fmt, before, line[..k - |before|]);
    } else {
      assert line[..|line|] == line;
      RepairLastLine(fmt, before, line);
    }
  }

  lemma {:induction false} RepairCrashed<T(!new)>(fmt: Format<T>, rs: seq<T>, k: nat)
    requires Lawful(fmt) && k <= |Journal(fmt, rs)|
    ensures Repaired(fmt, Journal(fmt, rs)[..k]) == Journal(fmt, rs[..Complete(fmt, rs, k)])
    decreases |rs|
  {
    if rs == [] {
      assert Journal(fmt, rs)[..k] == [] && rs[..0] == [];
    } else {
      var front := rs[..|rs| - 1];
      var before := Journal(fmt, front);
      assert front[..|front|] == front && rs[..|front|] == front && rs[..|rs|] == rs;
      if k <= |before| {
        assert Journal(fmt, rs)[..k] == before[..k];
        assert fmt.encode(rs[|rs| - 1]) != [];
        RepairCrashed(fmt, front, k);
        assert rs[..Complete(fmt, front, k)] == front[..Complete(fmt, front, k)];
      } else {
        RepairTorn(fmt, front, rs[|rs| - 1], k);
        FrontIsComplete(fmt, front, k);
      }
    }
  }

  lemma FrontIsComplete<T>(fmt: Format<T>, rs: seq<T>, k: nat)
    requires k >= |Journal(fmt, rs)|
    ensures Complete(fmt, rs, k) == |rs|
  {
  }

  lemma {:induction false} JournalOfPrefix<T>(fmt: Format<T>, rs: seq<T>, m: nat)
    requires m <= |rs|
    ensures |Journal(fmt, rs[..m])| <= |Journal(fmt, rs)|
    ensures m < |rs| ==> |Journal(fmt, rs[..m])| < |Journal(fmt, rs)|
    decreases |rs|
  {
    if m == |rs| {
      assert rs[..m] == rs;
    } else {
      var front := rs[..|rs| - 1];
      assert front[..m] == rs[..m];
      JournalOfPrefix(fmt, front, m);
    }
  }

  /** The complete records are the longest run of records whose lines, but for the last newline, lie within the cut. */
  lemma {:induction false} CompleteIsGreatest<T>(fmt: Format<T>, rs: seq<T>, k: nat, m: nat)
    requires m <= |rs|
    ensures m <= Complete(fmt, rs, k) <==> |Journal(fmt, rs[..m])| <= k + 1
    decreases |rs|
  {
    if rs == [] {
      assert rs[..m] == [];
    } else {
      JournalOfPrefix(fmt, rs, m);
      var front := rs[..|rs| - 1];
      if m == |rs| {
        assert rs[..m] == rs;
      } else {
        assert front[..m] == rs[..m];
        if k + 1 < |Journal(fmt, rs)| {
          CompleteIsGreatest(fmt, front, k, m);
        }
      }
    }
  }

  /**
   A journal of `rs`, of which the first `m` records were synced, crashes at any later byte
   and is opened again and appended to: it replays the records that were complete at
   the crash, every synced one among them, followed by the new one. Opening it once more changes nothing.
   */
  lemma JournalSurvivesCrash<T(!new)>(fmt: Format<T>, rs: seq<T>, m: nat, k: nat, r: T)
    requires Lawful(fmt) && m <= |rs|
    requires |Journal(fmt, rs[..m])| <= k <= |Journal(fmt, rs)|
    ensures
      var n := Complete(fmt, rs, k);
      var reopened := Repaired(fmt, Journal(fmt, rs)[..k]);
      && m <= n <= |rs|
      && Replay(fmt, reopened) == Success(rs[..n])
      && Replay(fmt, reopened + Line(fmt, r)) == Success(rs[..n] + [r])
      && Repaired(fmt, reopened) == reopened
  {
    var n := Complete(fmt, rs, k);
    RepairCrashed(fmt, rs, k);
    CompleteIsGreatest(fmt, rs, k, m);
    ReplayJournal(fmt, rs[..n]);
    assert (rs[..n] + [r])[..n] == rs[..n];
    ReplayJournal(fmt, rs[..n] + [r]);
    RepairWhole(fmt, rs[..n]);
  }

  /** Repair leaves a well-formed journal as it is. */
  lemma RepairWhole<T(!new)>(fmt: Format<T>, rs: seq<T>)
    requires Lawful(fmt)
    ensures Repaired(fmt, Journal(fmt, rs)) == Journal(fmt, rs)
  {
    var all := Journal(fmt, rs);
    assert all[..|all|] == all && rs[..|rs|] == rs;
    RepairCrashed(fmt, rs, |all|);
  }

  // ---- the assumptions on the encoding can be met ----

  const OPEN: Byte := 123
  const CLOSE: Byte := 125
  const MARK: Byte := 120

  predicate IsTally(line: seq<Byte>) {
    && |line| >= 2 && line[0] == OPEN && line[|line| - 1] == CLOSE
    && forall i :: 0 < i < |line| - 1 ==> line[i] == MARK
  }

  datatype Tally = Tally(marks: nat)

  function Marks(n: nat): seq<Byte> {
    seq(n, i => MARK)
  }

  function Scratched(tally: Tally): seq<Byte> {
    [OPEN] + Marks(tally.marks) + [CLOSE]
  }

  /** Objects that hold nothing but tally marks. */
  function Tallies(): Format<Tally> {
    Format((tally: Tally) => Scratched(tally),
           line => IsTally(line),
           line => if IsTally(line) then Some(Tally(|line| - 2)) else None,
           line => true)
  }

  lemma ScratchedIsTally(tally: Tally)
    ensures Unbroken(Scratched(tally)) && !Blank(Scratched(tally)) && IsTally(Scratched(tally))
    ensures |Scratched(tally)| == tally.marks + 2
  {
    var line := Scratched(tally);
    assert line[0] == OPEN;
    forall i | 0 < i < |line| - 1 ensures line[i] == MARK {
      assert line[i] == Marks(tally.marks)[i - 1];
    }
  }

  lemma PrefixIsNoTally(tally: Tally, k: nat)
    requires 0 < k < |Scratched(tally)|
    ensures !IsTally(Scratched(tally)[..k])
  {
    var line := Scratched(tally);
    if k >= 2 {
      assert line[..k][k - 1] == line[k - 1] == Marks(tally.marks)[k - 2];
    }
  }

  lemma TalliesAreLawful()
    ensures Lawful(Tallies())
  {
    forall r: Tally
      ensures Unbroken(Scratched(r)) && !Blank(Scratched(r)) && IsTally(Scratched(r)) && |Scratched(r)| == r.marks + 2
      ensures forall k :: 0 < k < |Scratched(r)| ==> !IsTally(Scratched(r)[..k])
    {
      ScratchedIsTally(r);
      forall k | 0 < k < |Scratched(r)|
        ensures !IsTally(Scratched(r)[..k])
      {
        PrefixIsNoTally(r, k);
      }
    }
  }
}
