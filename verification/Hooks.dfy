/**
 Injecting the program's own hook commands into an agent's hook configuration, and taking
 them out again, among entries that belong to other tools.
 */
module Hooks {
  import opened Wrappers
  import opened Json
  import opened Text

  /** The list of entries under each event. */
  type Lists = map<string, seq<Value>>

  // ---- recognising a command ----

  predicate EndsWith(s: string, suffix: string) {
    |suffix| <= |s| && s[|s| - |suffix|..] == suffix
  }

  function TokenLength(s: string): (n: nat)
    ensures n <= |s|
  {
    if s == "" || IsSpace(s[0]) then 0 else 1 + TokenLength(s[1..])
  }

  function FirstToken(s: string): string {
    var t := TrimStart(s);
    t[..TokenLength(t)]
  }

  /** The executable is slopctl, plain or by a path. */
  predicate Recognised(prefix: string) {
    FirstToken(prefix) == "slopctl" || EndsWith(FirstToken(prefix), "/slopctl")
  }

  function Suffix(event: string): string {
    " hook " + event
  }

  function CommandOf(slopctl: string, event: string): string {
    slopctl + Suffix(event)
  }

  function HookCommand(hook: Value): Option<string> {
    if AsStr(Get(hook, "type")) == Some("command") then AsStr(Get(hook, "command")) else None
  }

  predicate IsOurHook(hook: Value, event: string) {
    match HookCommand(hook)
    case None => false
    case Some(cmd) => EndsWith(cmd, Suffix(event)) && Recognised(cmd[..|cmd| - |Suffix(event)|])
  }

  function HooksOf(entry: Value): seq<Value> {
    OrElse(AsArray(Get(entry, "hooks")), [])
  }

  /** Some hook of the entry is a slopctl command; any other entry is foreign. */
  predicate IsOurs(entry: Value, event: string) {
    exists i :: 0 <= i < |HooksOf(entry)| && IsOurHook(HooksOf(entry)[i], event)
  }

  /** Some hook of the entry is a slopctl command other than the current one. */
  predicate IsStale(entry: Value, event: string, command: string) {
    exists i :: 0 <= i < |HooksOf(entry)| && IsOurHook(HooksOf(entry)[i], event) && HookCommand(HooksOf(entry)[i]) != Some(command)
  }

  predicate IsPresent(entry: Value, command: string) {
    exists i :: 0 <= i < |HooksOf(entry)| && HookCommand(HooksOf(entry)[i]) == Some(command)
  }

  function OurEntry(command: string): Value {
    Object(map["matcher" := String(""),
               "hooks" := Array([Object(map["type" := String("command"), "command" := String(command)])])])
  }

  // ---- one event ----

  function WithoutStale(entries: seq<Value>, event: string, command: string): seq<Value> {
    if entries == [] then []
    else
      var last := entries[|entries| - 1];
      WithoutStale(entries[..|entries| - 1], event, command) + if IsStale(last, event, command) then [] else [last]
  }

  function Foreign(entries: seq<Value>, event: string): seq<Value> {
    if entries == [] then []
    else
      var last := entries[|entries| - 1];
      Foreign(entries[..|entries| - 1], event) + if IsOurs(last, event) then [] else [last]
  }

  predicate AnyPresent(entries: seq<Value>, command: string) {
    exists i :: 0 <= i < |entries| && IsPresent(entries[i], command)
  }

  function Injected(entries: seq<Value>, event: string, slopctl: string): seq<Value> {
    var command := CommandOf(slopctl, event);
    var kept := WithoutStale(entries, event, command);
    if AnyPresent(kept, command) then kept else kept + [OurEntry(command)]
  }

  function ListOf(lists: Lists, event: string): seq<Value> {
    if event in lists then lists[event] else []
  }

  predicate ListInjected(before: Lists, after: Lists, slopctl: string, events: seq<string>, e: string) {
    && (e in after <==> e in before || e in events)
    && (e in after ==> after[e] == if e in events then Injected(ListOf(before, e), e, slopctl) else ListOf(before, e))
  }

  /** Exactly the lists of these events are as one injection makes them. */
  ghost predicate InjectedFor(before: Lists, after: Lists, slopctl: string, events: seq<string>) {
    forall e :: ListInjected(before, after, slopctl, events, e)
  }

  lemma InjectedForNext(before: Lists, now: Lists, slopctl: string, done: seq<string>, event: string)
    requires InjectedFor(before, now, slopctl, done)
    ensures InjectedFor(before, now[event := Injected(ListOf(now, event), event, slopctl)], slopctl, done + [event])
  {
    var injected := Injected(ListOf(before, event), event, slopctl);
    assert Injected(ListOf(now, event), event, slopctl) == injected by {
      assert ListInjected(before, now, slopctl, done, event);
      InjectingTwice(ListOf(before, event), event, slopctl);
    }
    var next, covered := now[event := injected], done + [event];
    forall e
      ensures ListInjected(before, next, slopctl, covered, e)
    {
      assert ListInjected(before, now, slopctl, done, e);
    }
  }

  // ---- the configuration, changed in place ----

  class Settings {
    var lists: Lists

    constructor (lists: Lists)
      ensures this.lists == lists
    {
      this.lists := lists;
    }

    method InjectEvent(slopctl: string, event: string)
      modifies this
      ensures lists == old(lists)[event := Injected(ListOf(old(lists), event), event, slopctl)]
    {
      var command := CommandOf(slopctl, event);
      var entries := Retain(ListOf(lists, event), event, command);
      if !AnyPresent(entries, command) {
        entries := entries + [OurEntry(command)];
      }
      lists := lists[event := entries];
    }

    /** Drops stale entries and adds the current command for each event, if it is not there. */
    method InjectHookEvents(slopctl: string, events: seq<string>)
      modifies this
      ensures InjectedFor(old(lists), lists, slopctl, events)
    {
      var i := 0;
      while i < |events|
        invariant 0 <= i <= |events|
        invariant InjectedFor(old(lists), lists, slopctl, events[..i])
      {
        InjectedForNext(old(lists), lists, slopctl, events[..i], events[i]);
        assert events[..i + 1] == events[..i] + [events[i]];
        InjectEvent(slopctl, events[i]);
        i := i + 1;
      }
      assert events[..i] == events;
    }

    /** Drops every slopctl entry; an event without a list keeps none. */
    method RemoveHookEvents(events: seq<string>)
      modifies this
      ensures lists.Keys == old(lists).Keys
      ensures forall e :: e in lists ==> lists[e] == if e in events then Foreign(old(lists)[e], e) else old(lists)[e]
    {
      var i := 0;
      while i < |events|
        invariant 0 <= i <= |events|
        invariant lists.Keys == old(lists).Keys
        invariant forall e :: e in lists ==> lists[e] == if e in events[..i] then Foreign(old(lists)[e], e) else old(lists)[e]
      {
        var event := events[i];
        assert events[..i + 1] == events[..i] + [event];
        i := i + 1;
        if event !in lists {
          continue;
        }
        ForeignTwice(old(lists)[event], event);
        var entries := RetainForeign(lists[event], event);
        lists := lists[event := entries];
      }
      assert events[..i] == events;
    }
  }

  method Retain(entries: seq<Value>, event: string, command: string) returns (kept: seq<Value>)
    ensures kept == WithoutStale(entries, event, command)
  {
    kept := [];
    var i := 0;
    while i < |entries|
      invariant 0 <= i <= |entries|
      invariant kept == WithoutStale(entries[..i], event, command)
    {
      assert entries[..i + 1][..i] == entries[..i];
      if !IsStale(entries[i], event, command) {
        kept := kept + [entries[i]];
      }
      i := i + 1;
    }
    assert entries[..i] == entries;
  }

  method RetainForeign(entries: seq<Value>, event: string) returns (kept: seq<Value>)
    ensures kept == Foreign(entries, event)
  {
    kept := [];
    var i := 0;
    while i < |entries|
      invariant 0 <= i <= |entries|
      invariant kept == Foreign(entries[..i], event)
    {
      assert entries[..i + 1][..i] == entries[..i];
      if !IsOurs(entries[i], event) {
        kept := kept + [entries[i]];
      }
      i := i + 1;
    }
    assert entries[..i] == entries;
  }

  // ---- our own entry ----

  lemma OwnEntry(slopctl: string, event: string)
    ensures
      var entry := OurEntry(CommandOf(slopctl, event));
      && IsPresent(entry, CommandOf(slopctl, event))
      && !IsStale(entry, event, CommandOf(slopctl, event))
      && (IsOurs(entry, event) <==> Recognised(slopctl))
  {
    var command := CommandOf(slopctl, event);
    var hook := Object(map["type" := String("command"), "command" := String(command)]);
    assert HooksOf(OurEntry(command)) == [hook];
    assert HooksOf(OurEntry(command))[0] == hook && HookCommand(hook) == Some(command);
    assert command[|command| - |Suffix(event)|..] == Suffix(event);
    assert command[..|command| - |Suffix(event)|] == slopctl;
    assert IsOurHook(hook, event) <==> Recognised(slopctl);
  }

  /** A recognised command that is present makes its entry ours. */
  lemma PresentIsOurs(entry: Value, slopctl: string, event: string)
    requires Recognised(slopctl) && IsPresent(entry, CommandOf(slopctl, event))
    ensures IsOurs(entry, event)
  {
    var command := CommandOf(slopctl, event);
    var i :| 0 <= i < |HooksOf(entry)| && HookCommand(HooksOf(entry)[i]) == Some(command);
    assert command[|command| - |Suffix(event)|..] == Suffix(event);
    assert command[..|command| - |Suffix(event)|] == slopctl;
    assert IsOurHook(HooksOf(entry)[i], event);
  }

  lemma StaleIsOurs(entry: Value, event: string, command: string)
    requires IsStale(entry, event, command)
    ensures IsOurs(entry, event)
  {
  }

  // ---- filters ----

  lemma {:induction false} NoneStale(entries: seq<Value>, event: string, command: string)
    requires forall i :: 0 <= i < |entries| ==> !IsStale(entries[i], event, command)
    ensures WithoutStale(entries, event, command) == entries
  {
    if entries != [] {
      NoneStale(entries[..|entries| - 1], event, command);
    }
  }

  lemma {:induction false} StaleAreGone(entries: seq<Value>, event: string, command: string)
    ensures forall i :: 0 <= i < |WithoutStale(entries, event, command)| ==> !IsStale(WithoutStale(entries, event, command)[i], event, command)
  {
    if entries != [] {
      StaleAreGone(entries[..|entries| - 1], event, command);
    }
  }

  lemma {:induction false} OursAreGone(entries: seq<Value>, event: string)
    ensures forall i :: 0 <= i < |Foreign(entries, event)| ==> !IsOurs(Foreign(entries, event)[i], event)
  {
    if entries != [] {
      OursAreGone(entries[..|entries| - 1], event);
    }
  }

  predicate NoneOurs(entries: seq<Value>, event: string) {
    forall i :: 0 <= i < |entries| ==> !IsOurs(entries[i], event)
  }

  lemma {:induction false} AllForeign(entries: seq<Value>, event: string)
    requires NoneOurs(entries, event)
    ensures Foreign(entries, event) == entries
  {
    if entries != [] {
      AllForeign(entries[..|entries| - 1], event);
    }
  }

  lemma ForeignTwice(entries: seq<Value>, event: string)
    ensures Foreign(Foreign(entries, event), event) == Foreign(entries, event)
  {
    OursAreGone(entries, event);
    AllForeign(Foreign(entries, event), event);
  }

  lemma ForeignAppend(entries: seq<Value>, entry: Value, event: string)
    ensures Foreign(entries + [entry], event) == Foreign(entries, event) + if IsOurs(entry, event) then [] else [entry]
  {
    assert (entries + [entry])[..|entries|] == entries;
  }

  lemma {:induction false} ForeignWithoutStale(entries: seq<Value>, event: string, command: string)
    ensures Foreign(WithoutStale(entries, event, command), event) == Foreign(entries, event)
  {
    if entries != [] {
      var front, last := entries[..|entries| - 1], entries[|entries| - 1];
      ForeignWithoutStale(front, event, command);
      if !IsStale(last, event, command) {
        ForeignAppend(WithoutStale(front, event, command), last, event);
      } else {
        assert WithoutStale(front, event, command) + [] == WithoutStale(front, event, command);
        StaleIsOurs(last, event, command);
      }
    }
  }

  // ---- what injection does ----

  /** Injecting the same command again changes nothing. */
  lemma InjectingTwice(entries: seq<Value>, event: string, slopctl: string)
    ensures Injected(Injected(entries, event, slopctl), event, slopctl) == Injected(entries, event, slopctl)
  {
    var command := CommandOf(slopctl, event);
    StaleAreGone(entries, event, command);
    OwnEntry(slopctl, event);
    var injected := Injected(entries, event, slopctl);
    NoneStale(injected, event, command);
    if !AnyPresent(WithoutStale(entries, event, command), command) {
      assert IsPresent(injected[|injected| - 1], command);
    }
  }

  /** Injection keeps every foreign entry, in order, and adds none, exactly when the command's executable is recognised. */
  lemma InjectionKeepsForeignIff(event: string, slopctl: string)
    ensures (forall entries :: Foreign(Injected(entries, event, slopctl), event) == Foreign(entries, event)) <==> Recognised(slopctl)
  {
    var command := CommandOf(slopctl, event);
    OwnEntry(slopctl, event);
    if Recognised(slopctl) {
      forall entries: seq<Value>
        ensures Foreign(Injected(entries, event, slopctl), event) == Foreign(entries, event)
      {
        ForeignWithoutStale(entries, event, command);
        ForeignAppend(WithoutStale(entries, event, command), OurEntry(command), event);
      }
    } else {
      assert Injected([], event, slopctl) == [OurEntry(command)];
      ForeignAppend([], OurEntry(command), event);
      assert [] + [OurEntry(command)] == [OurEntry(command)];
      assert Foreign(Injected([], event, slopctl), event) != Foreign([], event);
    }
  }

  /** Into a list of foreign entries and at most one earlier command of ours, injection puts exactly the new one. */
  lemma InjectedReplaces(foreign: seq<Value>, earlier: Option<string>, event: string, slopctl: string)
    requires NoneOurs(foreign, event)
    requires Recognised(slopctl) && (earlier.Some? ==> Recognised(earlier.value))
    ensures
      var before := foreign + if earlier.Some? then [OurEntry(CommandOf(earlier.value, event))] else [];
      Injected(before, event, slopctl) == foreign + [OurEntry(CommandOf(slopctl, event))]
  {
    var command := CommandOf(slopctl, event);
    forall i | 0 <= i < |foreign|
      ensures !IsStale(foreign[i], event, command) && !IsPresent(foreign[i], command)
    {
      if IsPresent(foreign[i], command) {
        PresentIsOurs(foreign[i], slopctl, event);
      }
    }
    NoneStale(foreign, event, command);
    if earlier.None? {
      assert foreign + [] == foreign;
    } else {
      var previous := OurEntry(CommandOf(earlier.value, event));
      OwnEntry(earlier.value, event);
      assert (foreign + [previous])[..|foreign|] == foreign;
      OwnEntry(slopctl, event);
      if CommandOf(earlier.value, event) != command {
        StaleEntry(earlier.value, event, command);
        assert WithoutStale(foreign + [previous], event, command) == foreign + [] == foreign;
      } else {
        assert IsPresent((foreign + [previous])[|foreign|], command);
      }
    }
  }

  lemma StaleEntry(earlier: string, event: string, command: string)
    requires Recognised(earlier) && CommandOf(earlier, event) != command
    ensures IsStale(OurEntry(CommandOf(earlier, event)), event, command)
  {
    OwnEntry(earlier, event);
    var entry := OurEntry(CommandOf(earlier, event));
    var i :| 0 <= i < |HooksOf(entry)| && IsOurHook(HooksOf(entry)[i], event);
    assert HooksOf(entry) == [Object(map["type" := String("command"), "command" := String(CommandOf(earlier, event))])];
  }

  /** The list after a sequence of injections. */
  function InjectedAll(entries: seq<Value>, event: string, commands: seq<string>): seq<Value> {
    if commands == [] then entries
    else Injected(InjectedAll(entries, event, commands[..|commands| - 1]), event, commands[|commands| - 1])
  }

  /**
   From a list without entries of ours, any sequence of injections leaves exactly one, the last,
   after the foreign ones in their order; removal then gives back the list.
   */
  lemma {:induction false} InjectionsThenRemoval(foreign: seq<Value>, event: string, commands: seq<string>)
    requires NoneOurs(foreign, event)
    requires commands != [] && forall i :: 0 <= i < |commands| ==> Recognised(commands[i])
    ensures InjectedAll(foreign, event, commands) == foreign + [OurEntry(CommandOf(commands[|commands| - 1], event))]
    ensures Foreign(InjectedAll(foreign, event, commands), event) == foreign
    decreases |commands|
  {
    var front, last := commands[..|commands| - 1], commands[|commands| - 1];
    if front == [] {
      assert foreign + [] == foreign;
      InjectedReplaces(foreign, None, event, last);
    } else {
      InjectionsThenRemoval(foreign, event, front);
      InjectedReplaces(foreign, Some(front[|front| - 1]), event, last);
    }
    AllForeign(foreign, event);
    OwnEntry(last, event);
    ForeignAppend(foreign, OurEntry(CommandOf(last, event)), event);
  }

  lemma InjectThenRemoveOne(foreign: seq<Value>, event: string, slopctl: string)
    requires NoneOurs(foreign, event) && Recognised(slopctl)
    ensures Foreign(Injected(foreign, event, slopctl), event) == foreign
  {
    InjectionKeepsForeignIff(event, slopctl);
    AllForeign(foreign, event);
  }

  /** Injecting and removing over a whole configuration gives back every list, missing ones as empty. */
  method InjectThenRemove(lists: Lists, slopctl: string, events: seq<string>) returns (after: Lists)
    requires Recognised(slopctl)
    requires forall e :: e in events && e in lists ==> NoneOurs(lists[e], e)
    ensures after.Keys == lists.Keys + set e | e in events
    ensures forall e :: e in after ==> after[e] == ListOf(lists, e)
  {
    var settings := new Settings(lists);
    settings.InjectHookEvents(slopctl, events);
    ghost var injected := settings.lists;
    settings.RemoveHookEvents(events);
    forall e
      ensures e in injected <==> e in lists || e in events
    {
      assert ListInjected(lists, injected, slopctl, events, e);
    }
    after := settings.lists;
    forall e | e in after
      ensures after[e] == ListOf(lists, e)
    {
      assert ListInjected(lists, injected, slopctl, events, e);
      if e in events {
        InjectThenRemoveOne(ListOf(lists, e), e, slopctl);
      }
    }
  }

  /** A path with a space before the executable's name is not recognised, so its hook outlives removal. */
  lemma SpacedPathIsForeign(directory: string, rest: string)
    requires directory != "" && forall i :: 0 <= i < |directory| ==> !IsSpace(directory[i])
    requires directory != "slopctl" && !EndsWith(directory, "/slopctl")
    ensures !Recognised(directory + " " + rest)
  {
    var path := directory + " " + rest;
    assert path[0] == directory[0] && path[|directory|] == ' ';
    TokenIs(path, |directory|);
    assert FirstToken(path) == directory;
  }

  lemma {:induction false} TokenIs(s: string, n: nat)
    requires n < |s| && IsSpace(s[n]) && forall i :: 0 <= i < n ==> !IsSpace(s[i])
    ensures TokenLength(s) == n
    decreases n
  {
    if n > 0 {
      TokenIs(s[1..], n - 1);
    }
  }

  // ---- which hooks are the program's own ----

  predicate IsWord(s: string) {
    s != "" && forall i :: 0 <= i < |s| ==> !IsSpace(s[i])
  }

  /** A command is recognised exactly when its first word is slopctl or a path that ends in /slopctl. */
  lemma RecognisedIff(blank: string, word: string, rest: string)
    requires AreSpaces(blank) && IsWord(word) && (rest == "" || IsSpace(rest[0]))
    ensures Recognised(blank + (word + rest)) <==> word == "slopctl" || exists directory :: word == directory + "/slopctl"
  {
    var text := word + rest;
    TrimmedOf(blank, text);
    WordIs(word, rest);
    assert FirstToken(blank + text) == word;
    var n := |word| - |"/slopctl"|;
    if EndsWith(word, "/slopctl") {
      assert word == word[..n] + "/slopctl";
    }
    if directory :| word == directory + "/slopctl" {
      assert word[|directory|..] == "/slopctl";
    }
  }

  lemma {:induction false} WordIs(word: string, rest: string)
    requires IsWord(word) && (rest == "" || IsSpace(rest[0]))
    ensures TokenLength(word + rest) == |word| && (word + rest)[..|word|] == word
    decreases |word|
  {
    assert word == [word[0]] + word[1..] && !IsSpace(word[0]);
    assert (word + rest)[0] == word[0] && (word + rest)[1..] == word[1..] + rest;
    if |word| == 1 {
      assert word[1..] + rest == rest;
    } else {
      WordIs(word[1..], rest);
    }
  }

  /** A hook is the program's own for an event exactly when its command is a recognised one followed by "hook" and the event. */
  lemma OurHookIff(hook: Value, event: string, before: string)
    ensures IsOurHook(hook, event) ==>
              exists prefix :: HookCommand(hook) == Some(prefix + " hook " + event) && Recognised(prefix)
    ensures AsStr(Get(hook, "type")) == Some("command") && AsStr(Get(hook, "command")) == Some(before + " hook " + event) ==>
              (IsOurHook(hook, event) <==> Recognised(before))
    ensures AsStr(Get(hook, "type")) != Some("command") || AsStr(Get(hook, "command")).None? ==> !IsOurHook(hook, event)
  {
    var suffix := " hook " + event;
    if IsOurHook(hook, event) {
      var cmd := HookCommand(hook).value;
      var prefix := cmd[..|cmd| - |suffix|];
      assert cmd == prefix + suffix == prefix + " hook " + event;
    }
    var command := before + " hook " + event;
    assert command == before + suffix;
    assert command[|command| - |suffix|..] == suffix && command[..|command| - |suffix|] == before;
  }

  /** What is injected matches everything and runs just the command. */
  lemma OurEntryIs(command: string)
    ensures
      var entry := OurEntry(command);
      && Get(entry, "matcher") == Some(String(""))
      && |HooksOf(entry)| == 1 && HooksOf(entry)[0].Object?
      && HooksOf(entry)[0].fields == map["type" := String("command"), "command" := String(command)]
      && HookCommand(HooksOf(entry)[0]) == Some(command)
  {
  }
}
