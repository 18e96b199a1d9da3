# A verified model of slopd's adapters, journal, streams and client

slopd runs coding agents in tmux panes. This project models, in Dafny, the parts around it
that keep state over long runs, and proves what each of them is for.

`dafny verify dfyconfig.toml` checks everything. Each file holds one module.

## What is modelled

**Sessions and panes of the ACP adapter.** A logical session outlives its panes: a pane is
created, evicted by least `last_used`, revived from its grave, natively resumed, restarted,
adopted or lost, while prompts and steers run. `SessionCatalog` says what each critical section
(the code between two awaits that holds the `sessions` mutex) does to the catalog; `Adapter`
carries the same sections out in place on an object; `SessionProtocol` interleaves them as a
transition system in which the holder of the `session_creation` lock is one program counter,
every prompt and every steer runs on its own, and panes may die at any moment. Over every run:

* `SessionSafety`: no pane serves two sessions; resident panes stay within the limit, which
  adoption may exceed until a trim restores it; a trim ends; eviction touches no session with an
  active turn; only a delete and the retention sweep drop a logical session.
* `TurnProtocol`: one steer in flight per turn, and none when the turn is cleared or answered; one
  active turn per session, cleared only by itself. **That two turns of a session are never active
  together is false of the code as it stands**: after a delete during a turn, a pane that slopd restores
  brings the id back before the turn has ended. It holds in every run, such deletes included, as long as
  no pane is adopted for an id while a deleted turn of it is still active (`OneActiveTurn`), and fails
  exactly when a turn begins beside another (`OneActiveTurnIff`); `Readoption` has a run that comes to it.
* `SystemPrompt`, `PatientClients`: a prompt sent to a conversation that has not accepted the session's system prompt
  carries it. **This is false of the code as it stands.** The retry after a stale pane looks for the
  newest grave and records it without the creation lock (`adapter.rs:1163-1166`). If the session restarts
  from nothing meanwhile, the late write gives a session that counts as delivered a grave it does not
  fit: one that can be revived, holds another conversation, and never heard the system prompt. No prompt
  goes bare in any run whose retries record no such misfit (`SystemPromptDelivered`), and whenever a retry
  holds one while nobody has the lock, the session has no turn and there is room for its pane, some
  continuation sends a bare prompt (`MisfitGoesBare`).
  `StaleWindow` has the run from an empty catalog. A client is safe that asks for no prompt, resume or
  delete of a session while a prompt of it is unanswered (`PatientClientsDeliver`).
* `Retention`: the retention sweep drops exactly the sessions without pane or turn that were last touched before its cutoff. A
  session worked on at some time outlives every sweep with a cutoff no later, unless it is deleted or dated back behind that time;
  a pane adopted with older activity does date it back (`OldPaneForgetsRecent`).
* `Bookkeeping`: what each step does to a session's recency, native id, grave, pending history and delivery mark, and that
  no other step touches them.
* `Panics`: the lock holder takes a pane it has seen for granted in three places (`adapter.rs:945`,
  `1065-1070`, `1859-1862`). Between seeing and using it a session loses its pane exactly when a turn of it
  meets the end of the pane, so a delete, a prompt and an eviction can each panic; each has its exact
  condition and a run. `Runs` puts such runs together.

**The journal and the OAuth store.** `Jsonl` has the JSON-lines file as bytes with a synced length.
A crash keeps any prefix at least that long; opening repairs the file and replays exactly the records
that were complete. `OAuth` is the store on it, in place; `OAuthDurability` runs it through any number
of registrations, code exchanges, failed writes, crashes and reopens. Repair drops one bad line only,
so it is idempotent on journals, not on arbitrary files.

**Streams.** `Wire` frames the ACP stream whatever its chunks. `TurnGate` hides replayed Codex history.
`PartText` and `Projection` turn transcript records into client updates; `ToolReports` reads off the records what clients are told. `OpencodeEvents` presents
version 2 events cumulatively. `JsScanner` cuts tool calls out of scripts. `ReplyScan` finds the reply to a request.

**Client and mailbox.** `Client` routes responses by id to requests and subscriptions, `DirectMode` is the
client before its first subscription, `Mailbox` is the bounded queue of agent requests.

**Smaller pieces.** `TagCodec` and `Recovery` rebuild the catalog from pane tags; `PayloadPath` parses and
matches event paths; `Hooks` injects and removes hook commands. `Json`, `Text` and `Wrappers` hold what they share.

## Assumptions

* A native session id names a conversation, and a grave is named by the pane it buried. slopd records the death of a
  pane before it announces it, lists graves newest first, and revives only graves that have a native id.
  Under the lock, the newest grave of a session whose pane was just killed is that pane's; `PatientClientsDeliver`
  and `SerializedRecordsNoMisfit` assume of the retry only that it finds one in the same conversation.
* Revival and native resume keep the conversation, and what is revived is a new pane known by its native id. slopd may instead
  answer with a pane that is already live in that conversation (`slopd/src/main.rs:7625-7632`); that answer is not modelled.
  slopd restores an adopted pane of a known session with the conversation that session had.
* Pane ids, session ids, turn ids, codes, tokens and client ids are fresh when they are made, and ids and clocks do not overflow.
* A journal record is printed on one line that is not blank, parses as itself and is valid UTF-8, and no non-empty proper
  prefix of it is a JSON value, as for JSON objects (section 4 of RFC 8259). `TalliesAreLawful` shows the assumptions can be met together.
* Torn writes happen at crashes only; any other failed append writes nothing.
* UTF-8 validity, the text of a transcript payload, relaxed JSON parsing and the PKCE transform are parameters.

## Found along the way

* The system prompt can be lost: `WindowBreaksDelivery` is a run, `SystemPromptDelivered` and `MisfitGoesBare` say when.
* Two turns of one session can be active: `TwoTurnsOfOneSession` is a run, `OneActiveTurnIff` the exact condition. Adoption does
  not look at the tag that marks a pane as deleted (`adapter.rs:449-475`).
* Tagging a pane for a session removes foreign owner tags but no earlier session or directory tag, so what is read back can
  depend on the order in which tmux lists tags: `RetaggedReadsEither` has such a pane, `TagsReadBackIff` the exact condition.
* The path `foo[]]` makes the parser slice out of range, and `foo[0]x1]` reads as two indices, because the character after a
  closing bracket is skipped unseen; so does a longer character there. `ParseOutcome` says exactly which texts are accepted and which fail.
* A slopctl path with a space in a directory name is not recognised as slopctl, so injection leaves earlier entries and removal
  leaves the last: `InjectionKeepsForeignIff`, `SpacedPathIsForeign`.
* A session can be forgotten although it was worked on after the cutoff, if a pane last active before was adopted for it meanwhile:
  `OldPaneForgetsRecent` is a run, `TouchedIff` the exact condition.
* An eviction, a prompt and a delete panic when a turn of their session unseats it after they have seen its pane:
  `ChosenKeptIff`, `PromptPanicsIff`, `DeletePanicsIff`, with the runs `EvictionCanPanic`, `PromptCanPanic`, `DeleteCanPanic`.

## Model

| member | source | states |
|---|---|---|
| SessionSafety.RunSafe | slopd-acp/src/adapter.rs:1703-1954 | over every run no pane serves two sessions and resident panes exceed the limit by at most the panes adopted since the last trim |
| SessionSafety.ResidentsWithinLimit | slopd-acp/src/adapter.rs:1797-1813 | from a recovered catalog, any interleaving without adoption keeps residents within `max_sessions` |
| SessionSafety.TrimRestoresLimit | slopd-acp/src/adapter.rs:1815-1829 | after a trim that succeeds the limit holds until the next adoption |
| SessionSafety.TrimProgress | slopd-acp/src/adapter.rs:1815-1899 | each step of a trim lowers its rank or ends it, and nothing concurrent raises the rank |
| SessionSafety.TrimTerminates | slopd-acp/src/adapter.rs:1815-1899 | a trim takes at most as many steps as its rank, which the resident count bounds |
| SessionSafety.SessionsSurvive | slopd-acp/src/adapter.rs:1850-1954 | eviction, close, failed kills and pane death never drop a logical session |
| SessionSafety.SweepSparesUsedSessions | slopd-acp/src/adapter.rs:439-549 | the retention sweep drops no session with a pane or an active turn |
| Retention.SweepKeepsExactly | slopd-acp/src/adapter.rs:540-549 | the retention sweep keeps, unchanged, exactly the sessions with a pane, a turn, or touched at the cutoff or later |
| Retention.TouchedIff | slopd-acp/src/adapter.rs:491-515 | without deletes or later cutoffs, a session stays touched since a time throughout a run exactly when no work on it and no pane adopted for it dates it back |
| Retention.WorkedOnSurvives | slopd-acp/src/adapter.rs:1086-1093 | a session prompted, steered or resumed survives such runs |
| Retention.OldPaneForgetsRecent | slopd-acp/src/adapter.rs:491-501 | a concrete run forgets with a cutoff of 80 a session steered at 100, because a pane last active at 50 was adopted for it |
| Bookkeeping.RecencyOf | slopd-acp/src/adapter.rs:1675-1701 | recency is the number of the last work, the activity of an adopted pane, or at least the time of a recorded grave |
| Bookkeeping.RecencyKept | slopd-acp/src/adapter.rs:1831-1848 | and nothing else changes it |
| Bookkeeping.NewestGraveIs | slopd-acp/src/adapter.rs:1675-1691 | the grave a session is found by is that of its latest dead pane not revived since |
| Bookkeeping.NativeIsLastTold | slopd-acp/src/adapter.rs:1901-1954 | the native id is the last that slopd told of the session's pane or grave, until it is given a pane of its own |
| Bookkeeping.HistoryPendingIff | slopd-acp/src/adapter.rs:1077-1150 | history is pending exactly from the attachment of a resumed Codex pane until a turn begins, which discards it, and again if that turn ends unaccepted |
| Bookkeeping.DeliveredIff | slopd-acp/src/adapter.rs:1077-1150 | a session counts as delivered exactly from an accepted prompt until it loses its pane without a native id or restarts from nothing |
| SessionSafety.EvictionSparesActiveTurns | slopd-acp/src/adapter.rs:1831-1899 | an evicted session has no active turn from its selection until its grave is recorded |
| TurnProtocol.SteersAreSerialized | slopd-acp/src/adapter.rs:1976-2061 | two steers in flight belong to different turns, neither cleared nor being answered |
| TurnProtocol.NoSteerAtReply | slopd-acp/src/adapter.rs:1105-1183 | no steer holds a turn's permit when the turn is cleared or its response sent |
| TurnProtocol.AnsweredOnce | slopd-acp/src/adapter.rs:1150-1183 | once a turn is answered, or retried as another, nothing more comes of it in any continuation |
| TurnProtocol.OnlyOwnTurnClears | slopd-acp/src/adapter.rs:1120-1150 | a session's active turn ends only when the turn with that id clears it |
| TurnProtocol.OwnedIffNoMidTurnDeletes | slopd-acp/src/adapter.rs:917-975 | every turn under way is its session's active turn throughout a run exactly when no session is deleted during its turn |
| TurnProtocol.OneActiveTurnIff | slopd-acp/src/adapter.rs:1050-1104 | two turns of one session are never active together in a run exactly when none begins beside another that its catalog entry has forgotten |
| TurnProtocol.NoReadoptionBeginsAlone | slopd-acp/src/adapter.rs:439-507 | which never happens unless a pane is adopted for an id that was deleted during a turn still active |
| TurnProtocol.OneActiveTurn | slopd-acp/src/adapter.rs:1050-1104 | so in every run without such an adoption, deletes during turns included, a session has one active turn at most |
| Readoption.ReadoptedGoesDouble | slopd-acp/src/adapter.rs:1050-1104 | any session that came back while a turn of its id is active takes a second turn on the next prompt |
| Readoption.TwoTurnsOfOneSession | slopd-acp/src/adapter.rs:449-507 | a concrete run from an empty catalog has two active turns of one session |
| Panics.SeatKeptIff | slopd-acp/src/adapter.rs:1120-1168 | while the lock holder waits, a session keeps its pane exactly when no turn of it unseats it |
| Panics.PromptPanicsIff | slopd-acp/src/adapter.rs:1050-1070 | a prompt that found its session resident panics exactly when a turn unseats the session first and none is active |
| Panics.DeletePanicsIff | slopd-acp/src/adapter.rs:936-945 | a delete that found its session resident panics exactly when a turn unseats the session first |
| Panics.ChosenKeptIff | slopd-acp/src/adapter.rs:510-528 | a session chosen for eviction, alone or in the list of expired ones, stays evictable exactly when no turn unseats it before its turn comes |
| Panics.EvictionCanPanic | slopd-acp/src/adapter.rs:1850-1862 | a concrete run from an empty catalog comes to an eviction whose victim has no pane |
| Panics.PromptCanPanic | slopd-acp/src/adapter.rs:1065-1070 | a concrete run comes to a prompt whose resident session has no pane |
| Panics.DeleteCanPanic | slopd-acp/src/adapter.rs:939-945 | a concrete run comes to a delete whose resident session has no pane |
| SystemPrompt.StepPrompt | slopd-acp/src/adapter.rs:1077-1168 | every step but the record of a misfit keeps pane, grave and native id of a session in its own conversation or in ones that heard its system prompt, its own among these once it counts as delivered |
| SystemPrompt.CoherentIffNoMisfit | slopd-acp/src/adapter.rs:1156-1168 | a run keeps this exactly when no stale retry records a misfit |
| SystemPrompt.SystemPromptDelivered | slopd-acp/src/adapter.rs:1077-1104 | in a run without such a record no prompt goes bare to a conversation that has not accepted the system prompt |
| PatientClients.SerializedRecordsNoMisfit | slopd-acp/src/adapter.rs:1156-1168 | no misfit is recorded while no session is attached to another conversation during its retry |
| PatientClients.PatientIsSerialized | slopd-acp/src/adapter.rs:1050-1168 | which no request can cause that leaves alone sessions with an unanswered prompt |
| PatientClients.PatientClientsDeliver | slopd-acp/src/adapter.rs:1734-1793 | a client that makes only such requests never has a prompt sent bare, through eviction, revival, resume, restart and retry |
| StaleWindow.MisfitGoesBare | slopd-acp/src/adapter.rs:1156-1168 | whenever a retry holds a misfit while nobody has the lock, the session has no turn and there is room for its pane, some continuation sends a bare prompt |
| StaleWindow.MisburiedSendsBare | slopd-acp/src/adapter.rs:1734-1764 | any delivered session left with a revivable grave of an unprompted conversation sends its next prompt bare |
| StaleWindow.WindowBreaksDelivery | slopd-acp/src/adapter.rs:1163-1166 | a concrete run from an empty catalog sends a prompt without the system prompt to a conversation that never had it |
| Adapter.Adapter.ReconcileLiveSessions | slopd-acp/src/adapter.rs:1901-1931 | unseats exactly the sessions whose pane is gone, keeps known native ids, cancels exactly their active turns |
| Adapter.Adapter.LiveCount | slopd-acp/src/adapter.rs:1797-1829 | counts the resident sessions |
| Adapter.Adapter.SelectVictim | slopd-acp/src/adapter.rs:1831-1848 | an inactive resident of least `last_used`, or none exactly if there is none |
| Adapter.Adapter.TakeVictim | slopd-acp/src/adapter.rs:1850-1866 | takes the pane exactly of an inactive resident and changes nothing otherwise |
| Adapter.Adapter.ReturnVictim | slopd-acp/src/adapter.rs:1867-1899 | puts a pane that could not be killed back on its session if that still has none |
| Adapter.Adapter.MarkPaneGone | slopd-acp/src/adapter.rs:1933-1954 | unseats the session only from that very pane, and forgets delivery only without a native id |
| Adapter.Adapter.CaptureLatestGrave | slopd-acp/src/adapter.rs:1675-1701 | records the first unrevived grave of the session in the page order |
| Adapter.Adapter.RetainRecent | slopd-acp/src/adapter.rs:540-549 | keeps, unchanged, exactly the sessions with a pane, a turn, or touched at the cutoff or later |
| Adapter.Adapter.TrimRecoveredPanes | slopd-acp/src/adapter.rs:1815-1829 | success leaves residents within the limit, no session is dropped and none with a turn is touched |
| Jsonl.ReplayJournal | libslop/src/jsonl.rs:31-53 | replay reads back exactly the records appended, in order |
| Jsonl.BadLineIff | libslop/src/jsonl.rs:31-53 | after a journal, a blank line is passed over, one that is not UTF-8 is an error, and one that is no record is an error unless it is the last, which is dropped |
| Jsonl.RepairCrashed | libslop/src/jsonl.rs:55-87 | repair of a journal cut at any byte leaves the journal of its complete records |
| Jsonl.CompleteIsGreatest | libslop/src/jsonl.rs:55-87 | those are the longest run of records whose lines, but for the last newline, lie within the cut |
| Jsonl.JournalSurvivesCrash | libslop/src/jsonl.rs:9-87 | crash, reopen and append replays the complete records and the new one, every synced record among them, and reopening changes nothing |
| Jsonl.RepairWhole | libslop/src/jsonl.rs:55-87 | repair leaves a well-formed journal alone |
| Jsonl.TalliesAreLawful | libslop/src/jsonl.rs:25-29 | the assumptions on the record encoding can be met together |
| Jsonl.JournalFile.Repair | libslop/src/jsonl.rs:55-87 | the two scanning loops cut or terminate the last line as specified |
| Jsonl.JournalFile.Append | libslop/src/jsonl.rs:25-29 | appends one line and syncs nothing |
| Jsonl.JournalFile.ReplayAll | libslop/src/jsonl.rs:31-53 | the replay loop gives the records of the lines, dropping a malformed last one only |
| OAuth.OAuthStore.Open | slopd-mcp/src/oauth.rs:65-97 | the tables are the fold of the repaired journal, and a new file starts with its version |
| OAuth.OAuthStore.Persist | slopd-mcp/src/oauth.rs:99-153 | succeeds exactly once the event is on disk |
| OAuth.OAuthStore.Register | slopd-mcp/src/oauth.rs:99-113 | the client reaches the table exactly when its record is on disk |
| OAuth.OAuthStore.PutToken | slopd-mcp/src/oauth.rs:133-152 | the token reaches the table with the current binding exactly when its record is on disk |
| OAuth.OAuthStore.TakeCode | slopd-mcp/src/oauth.rs:123-131 | removes the code in any case and returns it only before it expires |
| OAuthDurability.RegisterInPlace | slopd-mcp/src/oauth.rs:99-113 | the store object takes exactly the writing step of the run model |
| OAuthDurability.PutTokenInPlace | slopd-mcp/src/oauth.rs:133-152 | the store object takes exactly the writing step of the run model |
| OAuthDurability.OpenInPlace | slopd-mcp/src/oauth.rs:65-97 | opening what a crash left takes the reopening step and always succeeds |
| OAuthDurability.AcknowledgedSurvives | slopd-mcp/src/oauth.rs:64-164 | after any operations, crashes and reopens the tables hold every acknowledged client and token, and beyond them only unacknowledged attempts |
| OAuthDurability.TokenHonouredIff | slopd-mcp/src/oauth.rs:154-163 | an acknowledged token is honoured for ever under its binding and resource and under no other |
| OAuthDurability.OneTokenPerCode | slopd-mcp/src/oauth.rs:446-495 | every token of an open store, acknowledged or not, was made for exactly one code and no other token for that code; the code was unexpired, as authorised, and redeemed by its client, redirect, resource and verifier (section 4.1.2 of RFC 6749, section 4.6 of RFC 7636) |
| OAuthDurability.ExchangeIff | slopd-mcp/src/oauth.rs:446-495 | an exchange puts a fresh token in the table exactly when grant type, expiry, client, redirect, resource and challenge all agree, and changes nothing otherwise |
| OAuthDurability.RedeemHoldsIff | slopd-mcp/src/oauth.rs:123-131 | a code is taken in any case, and held for its form exactly when the grant type is right and it is known and unexpired |
| OAuthDurability.CodesDieInCrashes | slopd-mcp/src/oauth.rs:65-97 | no code issued before a crash buys a token after it |
| Wire.Reader.ReadBoundedLine | slopd-acp/src/wire.rs:87-129 | the answer and what remains depend on the bytes alone, not on the chunks |
| Wire.Reader.ReadAll | slopd-acp/src/main.rs:280-290 | repeated reads give the transcript of the whole stream up to the first error |
| Wire.FramesOfStream | slopd-acp/src/wire.rs:87-129 | frames come stripped and in order, and each ending occurs exactly when stated: "too long" exactly for a frame with its newline, or a tail, beyond the maximum |
| Wire.CutOfIsCut | slopd-acp/src/wire.rs:92-110 | every stream is frames and an unterminated tail |
| Wire.CutIsUnique | slopd-acp/src/wire.rs:92-110 | in one way only |
| Wire.RoundTrip | slopd-acp/src/wire.rs:115-126 | messages sent with either line ending come back as they were |
| TurnGate.TurnTranscriptGate.Accepts | slopd-acp/src/adapter.rs:2225-2241 | an ungated record passes at once; a gated turn holds exactly what followed the last echo so far |
| TurnGate.RunTurn | slopd-acp/src/adapter.rs:2248-2275 | the order of arrival and display over turn, drain and completion |
| TurnGate.TurnShows | slopd-acp/src/adapter.rs:2313-2350 | of a Codex turn that may replay history the client sees exactly what follows the last echo of the prompt, once it completes, or nothing; of any other turn every record |
| TurnGate.HistoryIsDiscarded | slopd-acp/src/adapter.rs:2225-2241 | whatever history is replayed, even with the same prompt in it, only the turn's own records are shown |
| PartText.PartTexts.Text | slopd-acp/src/adapter.rs:2660-2690 | the fields after a record and the text sent for it, with snapshots forgotten when another message begins |
| PartText.PartsAreIndependent | slopd-acp/src/adapter.rs:3008-3028 | what is sent of a part depends on its own snapshots only |
| PartText.DeltasJoinIff | slopd-acp/src/adapter.rs:3021-3027 | deltas join to the latest snapshot exactly when every snapshot extends the one before |
| PartText.SentTextIsLatestIff | slopd-acp/src/adapter.rs:3008-3028 | within one message the text sent of a part is its latest snapshot under exactly that condition, however parts interleave |
| PartText.SentIff | slopd-acp/src/adapter.rs:2987-3028 | assistant text and reasoning are sent, nothing else: what is new in the part if it extends the last snapshot, else all of it |
| PartText.ClearingForgets | slopd-acp/src/adapter.rs:2662-2686 | a prompt, and an answer under another id or none, forget every part |
| Projection.Projector.CodexUpdates | slopd-acp/src/adapter.rs:2755-2820 | the open set and updates of a Codex call or result, and whether a plan takes its place |
| Projection.Projector.PartUpdates | slopd-acp/src/adapter.rs:2822-2882 | the open set and updates of an OpenCode tool part in each status |
| Projection.Projector.BlockUpdates | slopd-acp/src/adapter.rs:2884-2930 | the open set and updates of a record's Claude content blocks, in order |
| Projection.Projector.ToolUpdates | slopd-acp/src/adapter.rs:2755-2931 | the open set and updates of one record of any shape |
| Projection.Projector.FinishOpenTools | slopd-acp/src/adapter.rs:2933-2945 | closes each open tool exactly once and leaves none open |
| Projection.OpenIffUnclosed | slopd-acp/src/adapter.rs:2755-2931 | a tool is open exactly when some call of it has no later completed or failed update |
| Projection.OpenToolsAreUnclosed | slopd-acp/src/adapter.rs:2755-2931 | this holds of the projector's set after any records of any backend, and between two calls of one tool lies a closing update |
| Projection.ProjectTurn | slopd-acp/src/adapter.rs:2248-2275 | after a turn completes no call it showed is left without a closing update |
| ToolReports.EndsAsReported | slopd-acp/src/adapter.rs:2755-2931 | over any records a tool is said to fail exactly when a part reports "error" or "failed", and to complete exactly when a part, a result block or a result of its open call says so |
| ToolReports.BegunAsReported | slopd-acp/src/adapter.rs:2755-2931 | a tool is announced only by a call, a waiting or running part or a tool block, under the right name and status, and always when it was not open |
| ToolReports.TitleIs | slopd-acp/src/adapter.rs:3046-3066 | a script is named after the first tool it calls other than the plan, other calls after themselves |
| ToolReports.UnnamedIdsDiffer | slopd-acp/src/adapter.rs:3222-3236 | records of one pane without an id get different ids when their cursors or names differ |
| ToolReports.PlanOfIff | slopd-acp/src/adapter.rs:3188-3220 | which plan a call shows: of its arguments, or of the first plan its script calls for, with its explanation before it |
| ToolReports.EntryIs | slopd-acp/src/adapter.rs:3188-3220 | plan entries have one of three states and three priorities, each exactly when the item says so |
| ToolReports.EndsIff | slopd-acp/src/adapter.rs:2755-2820 | a plan takes the place of its call exactly unless that is a script that calls other tools too |
| ToolReports.PlanIsFirst | slopd-acp/src/adapter.rs:2755-2820 | a plan is shown before anything else of its record |
| ToolReports.NoOtherPlan | slopd-acp/src/adapter.rs:2755-2820 | no other record shows a plan |
| OpencodeEvents.Events.SeedTools | slopd/src/opencode_v2.rs:241-255 | the tools of the messages are known, later parts over earlier |
| OpencodeEvents.Events.Normalize | slopd/src/opencode_v2.rs:259-353 | the maps after an event and what is presented for it |
| OpencodeEvents.ToolShownAs | slopd/src/opencode_v2.rs:272-293 | the part shown for a tool event: state, name, input, output and error |
| OpencodeEvents.TextShownAs | slopd/src/opencode_v2.rs:299-319 | the part shown for a text event, with reasoning told from speech |
| OpencodeEvents.TurnShownAs | slopd/src/opencode_v2.rs:320-335 | how the beginning, end and failure of a turn are shown |
| OpencodeEvents.FormShownAs | slopd/src/opencode_v2.rs:339-349 | how a form and its answer are shown |
| OpencodeEvents.PromptShownAs | slopd/src/opencode_v2.rs:294-298 | a prompt of the user is shown as a message, anything else in the inbox passes |
| OpencodeEvents.OthersPass | slopd/src/opencode_v2.rs:259-353 | every other event passes as it is, and exactly which events show nothing |
| OpencodeEvents.PresentedTextIsAllDeltas | slopd/src/opencode_v2.rs:299-319 | the presented text is the concatenation of the key's deltas since it ended or its session terminated, whatever came between |
| OpencodeEvents.TerminationClearsItsSession | slopd/src/opencode_v2.rs:324-333 | termination clears exactly the text and tools of its own session |
| OpencodeEvents.KnownIffInFlight | slopd/src/opencode_v2.rs:231-293 | after any events with messages taken in between, a tool is known exactly when an event or a message showed it, or it was known at first, and no event has retired it since |
| OpencodeEvents.ResultCarriesCall | slopd/src/opencode_v2.rs:272-293 | a result carries the name its tool was started under and the input it was called with |
| OpencodeEvents.DeltasOfCumulative | slopd/src/opencode_v2.rs:299-319 | the projection takes the accumulated text apart into the same deltas |
| JsScanner.FirstJsArgument | slopd-acp/src/adapter.rs:3106-3145 | the scanning loop computes the specified argument, pops in failed guards included |
| JsScanner.RenderedArgument | slopd-acp/src/adapter.rs:3106-3145 | a container or quoted text is cut out exactly as written, whatever follows |
| JsScanner.BareArgument | slopd-acp/src/adapter.rs:3108-3114 | a bare argument reaches to the comma or parenthesis |
| JsScanner.EmbeddedToolCalls | slopd-acp/src/adapter.rs:3078-3104 | the loop ends and finds the calls of the greedy left-to-right search |
| JsScanner.ReportedAreCalls | slopd-acp/src/adapter.rs:3078-3104 | every reported call stands where it says, at strictly increasing places beyond the previous name |
| JsScanner.CallsAreReported | slopd-acp/src/adapter.rs:3078-3104 | every call is reported unless its marker begins inside the name at an earlier marker |
| JsScanner.IsCallIff | slopd-acp/src/adapter.rs:3078-3100 | a call is the marker, a name and an opening parenthesis after any white space, and nothing less |
| JsScanner.ScriptInputs | slopd-acp/src/adapter.rs:3093-3104 | each call is parsed with its argument, kept as text where it cannot be read |
| JsScanner.CallCarriesArgument | slopd-acp/src/adapter.rs:3093-3100 | a reported call carries its container or quoted argument exactly |
| ReplyScan.ReplySnapshotFrom | slopd-mcp/src/handler.rs:2133-2185 | the scanning loop with its three exits computes the fold of the records |
| ReplyScan.RequestReplySnapshot | slopd-mcp/src/handler.rs:2113-2131 | the scan starts after the first user record past the cursor with the same trimmed text |
| ReplyScan.PromptIs | slopd-mcp/src/handler.rs:2118-2122 | the prompt is the first user record past the cursor whose text, trimmed, is the request's |
| ReplyScan.ScannedIff | slopd-mcp/src/handler.rs:2138-2178 | the scan goes on exactly until a completion, a final answer, or a user record after an answer or failure that does not continue after a failure |
| ReplyScan.NextPromptEndsReply | slopd-mcp/src/handler.rs:2158-2160 | whatever follows such a user record, the snapshot is what it was before it |
| ReplyScan.CompleteIff | slopd-mcp/src/handler.rs:2143-2178 | a snapshot is complete exactly when the scanned part ends in a completion or final answer |
| ReplyScan.SaidIff | slopd-mcp/src/handler.rs:2147-2178 | what counts as an answer, a final answer and a continuation |
| ReplyScan.CompleteReplyIsStable | slopd-mcp/src/handler.rs:2113-2185 | an explicitly complete reply reports no failure and is the same in every extension of the transcript |
| ReplyScan.FailureIsStanding | slopd-mcp/src/handler.rs:2138-2160 | the reported failure is the last in the scanned part that no continuation, completion or final answer clears |
| ReplyScan.ReplyIsLastAnswer | slopd-mcp/src/handler.rs:2161-2178 | the reply is the last answer scanned: its own text, or if it is a chunk the concatenation of all chunk answers up to it |
| ReplyScan.NoReplyIff | slopd-mcp/src/handler.rs:2133-2185 | there is no reply exactly when no answer is scanned |
| Client.Multiplexed.SendRequest | libslopctl/src/lib.rs:851-866 | a new id is registered before anything is sent |
| Client.Multiplexed.SubscribeRequest | libslopctl/src/lib.rs:1395-1416 | a new id is registered as a queue before anything is sent |
| Client.Multiplexed.Route | libslopctl/src/lib.rs:738-770 | a response goes to the queue of its id, else to its waiter, else nowhere |
| Client.Multiplexed.TakeAnswer | libslopctl/src/lib.rs:866-873 | the caller gets the response of its slot; an unsubscribe answer takes its target out |
| Client.Multiplexed.ConfirmSubscription | libslopctl/src/lib.rs:1418-1437 | anything but a confirmation as first message takes the subscription out |
| Client.Multiplexed.CloseAll | libslopctl/src/lib.rs:744-751 | closing empties both tables |
| Client.AnswersMatch | libslopctl/src/lib.rs:738-873 | in every interleaving, with late answers to anything asked before the client was multiplexed, an answer carries the id its caller allocated and is the first message of that id since |
| Client.OpenDelivers | libslopctl/src/lib.rs:738-770 | while the connection is open a waiting request gets the first response with its id, and a registered subscription each message of its id |
| Client.FinalIsFinal | libslopctl/src/lib.rs:851-873 | an answered request keeps its answer, and one that timed out is never answered |
| Client.GivenUpStaysSo | libslopctl/src/lib.rs:851-873 | a request that was given up is never answered in any continuation |
| Client.LateResponseReachesNobody | libslopctl/src/lib.rs:762-768 | a response to a request that was given up, or made before the client was multiplexed, changes no caller |
| Client.SubscriptionsReceiveTheirs | libslopctl/src/lib.rs:1491-1504 | a subscription receives, in order, exactly the messages of its id while registered |
| Client.QueueEndsIff | libslopctl/src/lib.rs:1418-1504 | a subscription ends exactly when its unsubscription is confirmed, its request is refused, or the connection closes |
| Client.UnsubscribedReceivesNothing | libslopctl/src/lib.rs:1488-1504 | from then on, in every continuation, it is not registered and its inbox never changes |
| DirectMode.Request | libslopctl/src/lib.rs:875-901 | the reading loop before any subscription |
| DirectMode.ReplyIsFirstWithId | libslopctl/src/lib.rs:875-901 | after lines for others, the first response with the id, a line that does not parse, or the end decides |
| DirectMode.SendFiltered | libslopctl/src/lib.rs:1328-1390 | sends, collects by id and orders as specified |
| DirectMode.CollectedIff | libslopctl/src/lib.rs:1344-1365 | a batch reads on exactly until every id is answered, a line does not parse, or the lines end |
| DirectMode.AnyArrivalOrder | libslopctl/src/lib.rs:1344-1390 | in any arrival order, with anything between, the batch reports in send order |
| DirectMode.BatchSucceedsIff | libslopctl/src/lib.rs:1366-1390 | it succeeds exactly when every pane was sent to, else fails with the first that was not |
| Mailbox.MailboxQueue.Insert | slopd-mcp/src/handler.rs:76-101 | which entry answers, and that reuse and refusal change nothing |
| Mailbox.InsertedIff | slopd-mcp/src/handler.rs:77-100 | which retained entry answers: the latest for the same work within the window, else for a blocking request the latest pending one; accepted exactly when there is neither |
| Mailbox.RequestAcceptedIff | slopd-mcp/src/handler.rs:77-101 | in a run, exactly when a request is accepted, and what the queue then is |
| Mailbox.OutcomeAsReported | slopd-mcp/src/handler.rs:641-713 | a request is completed or failed exactly as its worker reported |
| Mailbox.MailboxIsBoundedAndSpaced | slopd-mcp/src/handler.rs:17-101 | in every run, with any clock, at most 100 entries, and equal keys more than the window apart with the later newer |
| Mailbox.DoneStaysDone | slopd-mcp/src/handler.rs:641-713 | an entry leaves Pending at most once |
| Mailbox.BlockingRunsHaveOnePending | slopd-mcp/src/handler.rs:621-660 | when all requests block, at most one request ever accepted is pending |
| TagCodec.HexDecodesIff | slopd-acp/src/adapter.rs:2529-2554 | decoding inverts encoding and accepts only the same digits in upper case besides |
| TagCodec.EncodedTagsAreLegal | libslop/src/lib.rs:270-284 | session, directory and scope tags are legal option names for any bytes |
| TagCodec.TagNameIff | libslop/src/lib.rs:270-284 | exactly which tags are option names, and which |
| TagCodec.PaneTags.TagSessionPane | slopd-acp/src/adapter.rs:1559-1606 | the tags left on the pane |
| TagCodec.TagsReadBackIff | slopd-acp/src/adapter.rs:2514-2527 | a tagged pane reads back as its session and directory in every order exactly when it had no other session or directory tag |
| TagCodec.RetaggedReadsEither | slopd-acp/src/adapter.rs:1559-1606 | a pane tagged for one session and then another has a listing that reads back as either |
| TagCodec.OneOwner | slopd-acp/src/adapter.rs:1571-1603 | a tagged pane has one owner and is resumable exactly when asked |
| Recovery.RecoverSessions | slopd-acp/src/adapter.rs:228-346 | the two loops recover exactly the specified catalog, clock and fate of every pane |
| Recovery.RecoverGraves | slopd-acp/src/adapter.rs:240-284 | the grave loop recovers exactly the sessions whose newest grave is eligible |
| Recovery.RecoverLive | slopd-acp/src/adapter.rs:286-336 | the pane loop overrides graves, the last eligible pane winning |
| Recovery.NextActivity | slopd-acp/src/adapter.rs:338-346 | the clock starts one past everything recovered, saturating, and never at zero |
| Recovery.BuriedRecoveredIff | slopd-acp/src/adapter.rs:240-284 | a session no live pane carries is recovered exactly when its newest grave has no tombstone, was not revived, was resumable and has a native id; and with which fields |
| Recovery.RecoveredFromSomewhere | slopd-acp/src/adapter.rs:240-336 | nothing is recovered without a live pane or a grave of it |
| Recovery.LiveRecovered | slopd-acp/src/adapter.rs:286-336 | a session some live pane carries is recovered from the last such pane, and with which fields |
| Recovery.CarriesIff | slopd-acp/src/adapter.rs:290-305 | a live pane carries the session of its tag once resumable, or without one the session named after it |
| Recovery.InScopeIff | slopd-acp/src/adapter.rs:552-573 | a pane is the adapter's by its first scope tag, or without one by account and backend |
| Recovery.CatalogIsUnique | slopd-acp/src/adapter.rs:228-346 | the specification determines the catalog |
| Recovery.PanesAccountedFor | slopd-acp/src/adapter.rs:289-336 | every pane in scope is retagged or discarded |
| Recovery.TaggedPaneIsRecovered | slopd-acp/src/adapter.rs:1559-1606 | a pane tagged as resumable is found again under the same session and directory |
| PayloadPath.ParsePayloadPath | libslop/src/lib.rs:2913-2962 | the nested loops compute the specified path, error or failed slice |
| PayloadPath.ParseOutcome | libslop/src/lib.rs:2913-2962 | exactly which texts are accepted and exactly which make the slice fail |
| PayloadPath.GuardedNeverPanics | libslop/src/lib.rs:2941-2960 | no failing slice when no closing bracket is followed by another or by a longer character |
| PayloadPath.OpeningIsUnread | libslop/src/lib.rs:2941-2960 | a group reads the same whatever one-byte character stands for its opening bracket |
| PayloadPath.DoubleClosePanics | libslop/src/lib.rs:2941-2960 | a concrete path whose parse slices out of range |
| PayloadPath.RoundTrip | libslop/src/lib.rs:2913-2962 | parsing the printed form of any path of keys, indices and wildcards, with or without a leading dot, returns it |
| PayloadPath.ParsedIsPrintable | libslop/src/lib.rs:2913-2962 | whatever is accepted is such a path |
| PayloadPath.MatchesIff | libslop/src/lib.rs:2970-3002 | a value matches exactly when some choice of indices for the wildcards leads to a scalar with the expected text |
| PayloadPath.ParseIndexIff | libslop/src/lib.rs:2948-2956 | an index is digits, after a plus sign or not, below two to the 64 |
| PayloadPath.ScalarTextIff | libslop/src/lib.rs:2996-3006 | scalars are compared by the text they are printed with |
| Hooks.Settings.InjectHookEvents | libslop/src/lib.rs:362-438 | exactly the lists of the given events are as one injection makes them |
| Hooks.Settings.RemoveHookEvents | libslop/src/lib.rs:448-481 | exactly the slopctl entries of the given events are gone |
| Hooks.InjectingTwice | libslop/src/lib.rs:355-438 | injection is idempotent |
| Hooks.InjectionKeepsForeignIff | libslop/src/lib.rs:390-417 | injection keeps the foreign entries of every list, in order and no more, exactly when its executable is recognised |
| Hooks.RecognisedIff | libslop/src/lib.rs:405-415 | a command is recognised exactly when its first word is slopctl or ends in /slopctl |
| Hooks.OurHookIff | libslop/src/lib.rs:390-417 | a hook is slopctl's exactly when it is a recognised command followed by "hook" and the event |
| Hooks.InjectionsThenRemoval | libslop/src/lib.rs:362-481 | any sequence of injections leaves exactly the last command after the foreign entries, and removal restores the list |
| Hooks.InjectThenRemove | libslop/src/lib.rs:362-481 | over a whole configuration, lists come back, missing ones as empty |
| Hooks.SpacedPathIsForeign | libslop/src/lib.rs:405-415 | an executable path with a space is not recognised |

## Left out

- The slopd daemon itself (checkpoints, graveyard compaction, lease server, hook ingestion), backends, sockets, HTTP routing, CLI and the Android client: processes and user interface.
- `shutdown`, leases, `session_list` and the RPC calls to slopd: their answers, failures included, are actions of the environment.
- Cancellation and timeouts: any turn may end, any request may be abandoned, at any time; when they do is not modelled.
- `last_used` as recency: it mixes a counter with unix times, so only "least `last_used`" is claimed.
- TurnProtocol.OneActiveTurn: requires that no pane is adopted for a deleted id while a turn of it is active; `TwoTurnsOfOneSession` shows that it fails otherwise.
- SystemPrompt.SystemPromptDelivered: the converse is about continuations, `MisfitGoesBare`; a run may record a misfit and yet end, or lose the grave, before any prompt goes bare.
- PatientClients.PatientClientsDeliver: assumes that a session still in the conversation of a killed pane has that conversation in its newest grave.
- SessionSafety.SweepSparesUsedSessions: one sweep step at a time (`Retention` has the runs); which sessions the sweep lists as expired is the environment's choice among idle ones.
- Recovery.RecoverSessions: takes the pages of graves as given; the server filters revived graves out before the loop sees them.
- Blank journal lines are recognised by ASCII white space; records are never blank, so this only concerns foreign files.
- Message ids, tool kinds, raw inputs and outputs of client updates, and texts of Claude and Codex records: branch readings without state beyond one field.
- Projection of records that Grok passes through unchanged; the copy of its data that `session.created` carries.
- Hooks: settings that are not objects, or event entries that are not lists, end the program; lists are assumed.
- Mailbox: a pending request evicted after a hundred accepted ones no longer blocks; the claim on one pending request is for runs in which all requests block.
- ReplyScan: transcripts are extended at their end; the window of the last 500 records that a caller reads can also drop records at its start.
- Hashing, random ids, base64, and the details of JSON syntax; the 64-bit wrap of ids and counters.
