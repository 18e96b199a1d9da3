/** White space, case and concatenation of texts, as the programs' standard library treats them. */
module Text {
  predicate IsSpace(c: char) {
    var n := c as int;
    || 9 <= n <= 13 || n == 32 || n == 0x85 || n == 0xA0 || n == 0x1680 || 0x2000 <= n <= 0x200A
    || n == 0x2028 || n == 0x2029 || n == 0x202F || n == 0x205F || n == 0x3000
  }

  function TrimStart(s: string): string {
    if s != "" && IsSpace(s[0]) then TrimStart(s[1..]) else s
  }

  function TrimEnd(s: string): string {
    if s != "" && IsSpace(s[|s| - 1]) then TrimEnd(s[..|s| - 1]) else s
  }

  function Trim(s: string): string {
    TrimEnd(TrimStart(s))
  }

  function AsciiLower(s: string): string {
    if s == "" then "" else [if 'A' <= s[0] <= 'Z' then s[0] - 'A' + 'a' else s[0]] + AsciiLower(s[1..])
  }

  function Join(texts: seq<string>): string {
    if texts == [] then "" else texts[0] + Join(texts[1..])
  }

  lemma {:induction false} JoinAppend(texts: seq<string>, more: string)
    ensures Join(texts + [more]) == Join(texts) + more
    decreases |texts|
  {
    if texts == [] {
      assert [] + [more] == [more];
      assert Join([more]) == more + Join([more][1..]) == more;
    } else {
      JoinAppend(texts[1..], more);
      assert (texts + [more])[1..] == texts[1..] + [more];
    }
  }

  predicate AreSpaces(s: string) {
    forall i :: 0 <= i < |s| ==> IsSpace(s[i])
  }

  lemma {:induction false} TrimmedOf(blank: string, rest: string)
    requires AreSpaces(blank) && (rest == "" || !IsSpace(rest[0]))
    ensures TrimStart(blank + rest) == rest
    decreases |blank|
  {
    if blank == "" {
      assert "" + rest == rest;
    } else {
      TrimmedOf(blank[1..], rest);
      assert (blank + rest)[1..] == blank[1..] + rest;
    }
  }

  lemma {:induction false} EndTrimmedOf(core: string, blank: string)
    requires AreSpaces(blank) && (core == "" || !IsSpace(core[|core| - 1]))
    ensures TrimEnd(core + blank) == core
    decreases |blank|
  {
    if blank == "" {
      assert core + "" == core;
    } else {
      var n := |blank| - 1;
      EndTrimmedOf(core, blank[..n]);
      assert (core + blank)[..|core| + n] == core + blank[..n];
    }
  }

  /** Trimming takes away the white space at both ends and nothing else. */
  lemma TrimIs(before: string, core: string, after: string)
    requires AreSpaces(before) && AreSpaces(after)
    requires core == "" || (!IsSpace(core[0]) && !IsSpace(core[|core| - 1]))
    ensures Trim(before + core + after) == core
  {
    if core == "" {
      var all := before + core + after;
      assert AreSpaces(all);
      TrimmedOf(all, "");
      assert all + "" == all;
    } else {
      assert before + core + after == before + (core + after);
      TrimmedOf(before, core + after);
      EndTrimmedOf(core, after);
    }
  }

  /** Only the letters from A to Z change. */
  lemma {:induction false} AsciiLowerAt(s: string, i: nat)
    requires i < |s|
    ensures |AsciiLower(s)| == |s|
    ensures AsciiLower(s)[i] == if 'A' <= s[i] <= 'Z' then s[i] - 'A' + 'a' else s[i]
    decreases |s|
  {
    if |s| > 1 {
      AsciiLowerAt(s[1..], if i == 0 then 0 else i - 1);
    }
  }
}
