# Tiles, modelled and proved

A Dafny project that models the parts of Tiles whose correctness does not show in any
single function, and proves what they promise. `dafny verify dfyconfig.toml` checks it.

| files | what they model |
|---|---|
| `Chats.dfy`, `ChatSync.dfy` | the chat store of a device, and replication between any number of devices |
| `Modelfile.dfy`, `ModelfileBuilder.dfy`, `ModelfileMeaning.dfy`, `ModelfileRoundTrip.dfy`, `ModelfileExact.dfy` | Modelfiles: parser, builder, printer |
| `LidMachine.dfy`, `Lid.dfy` | keeping the Mac awake with its lid closed: app, sentinel, marker file, system setting |
| `Awake.dfy`, `AwakeHeld.dfy`, `AwakeLife.dfy` | Stay Awake sessions: the pausable clock and the pass that reconciles |
| `ResponseEvents.dfy`, `StreamPieces.dfy`, `StreamAdapter.dfy`, `ToolArguments.dfy`, `FinishedCalls.dfy` | translating an upstream chat stream into numbered response events |
| `Engines.dfy`, `EngineStore.dfy`, `EngineRuns.dfy` | the folder inference engines are installed in |
| `Supervisor.dfy` | the menu bar supervisor and those who stop it |
| `Sse.dfy`, `Reasoning.dfy` | readers of text that arrives in pieces |
| `Tokens.dfy` | delegation tokens and the local names of peers |
| `ReplyChain.dfy` | how the turns of a conversation point back to each other |
| `Prelude.dfy`, `Text.dfy` | shared types and string operations |

Outcomes the code does not control are inputs: whether a write, a command or a spawn works,
where a stream is cut, what the clock says, when a process dies. Objects whose methods update
their fields are classes. Their methods are proved against functions on values, and say outright
what they write, without those functions; concurrent parts are state machines over their atomic steps, with invariants proved over every run.

What is taken for granted, and where the code does not do what one might expect:

- Ids are UUIDv7 (RFC 9562, section 5.7) and taken to be fresh and increasing per author
  (section 6.2). They are integers here, in the order of their text.
- A failed transaction changes nothing, and a failed `pmset` changes nothing.
- A delta is written by the device that asked for it. `ChatSync.GapExactly` says why that
  is needed.
- A sentinel or boot guard (`pkg/scripts/postinstall:44`) left from before a launch is over
  when a new hold arms. The code does not wait for it; `LidMachine.MarkerExactly` says when
  the marker is missing without that, and `LidMachine.LateRemoval` is such a run. The marker
  stays away until the hold is kept the next time.
- A pause and a resume that no pass of `reconcile` sees leave caffeinate with its old time
  (`AwakeHeld.UnseenPause`), so it can end the session early. `AwakeHeld.ChildCoversExactly`
  says exactly when it does, and `AwakeHeld.AlwaysCovered` that it does not if a pass sees
  each pause. The times of events are taken to be in the order the lock is taken in.
- A tool call is done as soon as an answer or a finish follows its name. Arguments that come
  after that are still sent, but its item does not have them (`FinishedCalls.ItemOfCall`); if
  what it has by then is no JSON, the item has no arguments at all (`FinishedCalls.BrokenItem`).
  A second name is not announced, but the item has it (`FinishedCalls.RenamedCall`), and so
  for an id (`FinishedCalls.LaterId`): later deltas and the item do not go by the announced one.
- Only the word `-R` of a command that starts with `ls` is removed: `-lR`, `--recursive` and
  an `ls` further on stay.
- The printer writes values unquoted. A value that starts with a parameter word takes the next
  line as its argument, and one with an open quote can be closed by a later line.
  `ModelfileExact.PlainExactly` says exactly which values survive. Comments that start with
  a word survive if one space and an unquoted text follow it.
- `Engine` folders are split at the last dash, so a tag with a dash is never found again.
- The index an event carries is the number of finished items when it is sent. A call's
  added and done events can carry different ones, and the message is not closed when a call
  was still open at the end.
- A turn without a prompt in a session that has not started leaves its reply without a
  session row (`ReplyChain.SessionsExactly`), and the next prompt starts a second chain
  (`ReplyChain.ChainExactly`); `ReplyChain.ReplyBeforePrompt` is such a run.
- `/resume` of a session without rows, or without a row of its own, ends the program.
- Event blocks end at two line feeds only. The other line ends of section 9.2.6 of the
  HTML standard are not looked for.

## Model

| member | source | states |
|---|---|---|
| `ChatSync.NoRowSkipped` | tiles/src/core/chats.rs:229-314 | in every state of every run of saves and syncs between any devices, with packets delayed, repeated, lost or cut short by a write error, a device holds of each author exactly the author's first k rows, k being the counter it asks from; of its own rows it holds all |
| `ChatSync.SameIdSameRow` | tiles/src/core/chats.rs:229-314 | an id found on two devices stands for the same row on both |
| `ChatSync.ExchangeConverges` | tiles/src/core/chats.rs:229-314 | after one exchange in both directions without write errors two devices hold the same rows of both authors |
| `ChatSync.RepliesCommute` | tiles/src/core/chats.rs:229-276 | any two deltas ever sent to a device may be written in either order |
| `ChatSync.GapExactly` | tiles/src/core/chats.rs:144-166 | writing part of an author's rows above some counter keeps a table free of gaps if and only if that counter is not above the one held: a delta must go to a device that has asked for it |
| `ChatSync.SessionsFollowRows` | tiles/src/core/chats.rs:168-228 | when no session lookup or write fails, every row that names a session has that session on its device, also after batches of rows that were cut short |
| `ChatSync.HeldAsSaved` | tiles/src/core/chats.rs:91-314 | in every run, whatever device holds the id of a saved row, at whatever time, holds in it the input, role, model, session, parent and time it was saved with, under its author |
| `ChatSync.HeldWasSaved` | tiles/src/core/chats.rs:91-314 | and every row on any device was saved so by its author, earlier in the run |
| `ChatSync.HeldWasMade` | tiles/src/core/chats.rs:168-228 | every session on any device was made by some event of the run, and has the id, name, time and creator that event gave it |
| `ChatSync.StepKeepsInv` | tiles/src/core/chats.rs:91-314 | saving, asking, answering and applying all keep the invariant that rows, counters and packets agree with what the authors saved |
| `ChatSync.CounterIsLength` | tiles/src/core/chats.rs:144-156 | holding the first k rows of an author is the same as finding k for the highest counter |
| `ChatSync.SelectIsTail` | tiles/src/core/chats.rs:159-166 | the rows above a counter, ordered by id, are the rest of the author's log from that counter on |
| `Chats.LastRowCounterMeaning` | tiles/src/core/chats.rs:144-156 | the highest counter among the author's rows, 0 without any |
| `Chats.SelectMeaning` | tiles/src/core/chats.rs:159-166 | all of the author's rows above the counter and no others, ordered by id |
| `Chats.ReadableExactly` | tiles/src/core/chats.rs:204-209 | a row can be read back exactly if its role is system, user or assistant |
| `Chats.ApplyIdempotent` | tiles/src/core/chats.rs:229-314 | a delta that arrives again, cut at the same places, leaves both tables as they were after the first time |
| `Chats.ApplyOrder` | tiles/src/core/chats.rs:229-276 | two batches of rows may be written in either order exactly when no new id comes with two contents |
| `Chats.InsertChatsAt` | tiles/src/core/chats.rs:241-275 | rows that are there win over new ones, and of new ones with the same id the first wins |
| `Chats.Store.GetLastRowCounter` | tiles/src/core/chats.rs:144-156 | returns a counter no row of the author exceeds and some row has, 0 when there is none |
| `Chats.Store.SaveChat` | tiles/src/core/chats.rs:91-110 | a saved row holds the input, role, model, session and parent of its draft, the author and the time, with the counter above all of the author's rows; nothing else changes, and a failed save changes nothing |
| `Chats.Store.SaveFirstChat` | tiles/src/core/chats.rs:114-126 | the same for the first row of a session, and session and row are both there or neither is new |
| `Chats.Store.CreateSession` | tiles/src/core/chats.rs:366-391 | a session that exists is returned as it is |
| `Chats.NewSession` | tiles/src/core/chats.rs:277-296 | a session that comes with a delta is inserted with its id, name and times and no snapshot, and one that is there stays |
| `Chats.Store.GetDelta` | tiles/src/core/chats.rs:159-228 | the author's rows above the counter with the sessions they name, one of each; an error exactly when some row's role cannot be read |
| `Chats.Store.ApplyDelta` | tiles/src/core/chats.rs:229-314 | writes the rows before the first fault that is no duplicate and the sessions before theirs, commits both, and changes nothing if the commit fails |
| `ModelfileRoundTrip.RoundTrip` | tilekit/src/modelfile.rs:296-429 | whatever successful builder calls on plain values made, with a FROM among them, its printed form parses to the same Modelfile: fields, parameters, messages and data lines; text after it that is no command changes nothing |
| `ModelfileRoundTrip.PrintParse` | tilekit/src/modelfile.rs:296-314 | for such a Modelfile printing and parsing again is the identity |
| `ModelfileExact.PlainExactly` | tilekit/src/modelfile.rs:320-391 | the line of a call is read back as that call whatever other lines follow if and only if its values are plain |
| `ModelfileRoundTrip.ReadLine` | tilekit/src/modelfile.rs:320-391 | a printed line is parsed as the call that made it, and parsing goes on at the next line |
| `ModelfileRoundTrip.EffectiveFolds` | tilekit/src/modelfile.rs:219-236 | the lines a builder is left with stand for the same Modelfile as all of its calls: a later SYSTEM takes the place of the first |
| `ModelfileRoundTrip.PutCallFolds` | tilekit/src/modelfile.rs:219-236 | setting the system text late comes to the same as having set it where its line stands |
| `ModelfileRoundTrip.WordFound` | tilekit/src/modelfile.rs:347-371 | no word of the parameter list starts another, so the order of the alternatives does not matter |
| `ModelfileRoundTrip.InstructionFound` | tilekit/src/modelfile.rs:333-345 | the instruction in the text is the one that is found |
| `ModelfileExact.CloserBreaks` | tilekit/src/modelfile.rs:373-384 | a value with an open quote at its start is read differently when a later line closes it |
| `ModelfileExact.WordTakes` | tilekit/src/modelfile.rs:347-371 | a value that starts with a word takes the text after it, even from the next line, as its argument |
| `Modelfiles.ParseCommand` | tilekit/src/modelfile.rs:320-331 | every command uses up text, so parsing ends on every input |
| `Modelfiles.AnyTag` | tilekit/src/modelfile.rs:333-345 | the text is cut behind one of the tags, in any case; fails only if none fits |
| `ModelfileRoundTrip.TagFound` | tilekit/src/modelfile.rs:333-345 | the tag taken is the first that fits |
| `Modelfiles.Quoted` | tilekit/src/modelfile.rs:373-384 | the text lies between two equal quotes and is at least one character |
| `Modelfiles.QuotedExactly` | tilekit/src/modelfile.rs:373-384 | a quoted text is found exactly where a quote is followed by a text that is not empty and ends at the first quote that comes after it has begun; otherwise it fails |
| `Modelfiles.SingleLine` | tilekit/src/modelfile.rs:385-391 | a non-empty text without a line break |
| `Modelfiles.SingleLineExactly` | tilekit/src/modelfile.rs:385-391 | the whole line behind its leading white space, the white space after it being skipped; fails exactly when there is none |
| `Modelfiles.SplitMeaning` | tilekit/src/modelfile.rs:146-151 | split at the last colon into two non-empty parts, unsplit if one would be empty |
| `Modelfiles.ParseI32Exactly` | tilekit/src/modelfile.rs:456-462 | of the decimal numbers exactly those that fit 32 bits are accepted |
| `Text.TrimMeaning` | tilekit/src/modelfile.rs:396-411 | trimming an argument takes white space off both ends and nothing else |
| `Modelfiles.SystemLineAt` | tilekit/src/modelfile.rs:223-231 | the first line of the log that is a SYSTEM line |
| `Roles.RoleReadBack` | tilekit/src/modelfile.rs:81-104 | the text of a role parses to that role, except for developer and toolResult, which do not parse |
| `ModelfileBuilder.Modelfile.AddFrom` | tilekit/src/modelfile.rs:169-181 | the first FROM sets repository and quantization and logs its line; a second leaves an error and nothing else |
| `ModelfileBuilder.Modelfile.AddTemplate` | tilekit/src/modelfile.rs:183-193 | the first TEMPLATE becomes the template and logs its line, a second leaves an error; no other field changes |
| `ModelfileBuilder.Modelfile.AddLicense` | tilekit/src/modelfile.rs:195-205 | the same for the license |
| `ModelfileBuilder.Modelfile.AddAdapter` | tilekit/src/modelfile.rs:207-217 | the same for the adapter |
| `ModelfileBuilder.Modelfile.AddSystem` | tilekit/src/modelfile.rs:219-236 | always succeeds and overwrites the first SYSTEM line of the log, or adds one |
| `ModelfileBuilder.Modelfile.AddComment` | tilekit/src/modelfile.rs:238-241 | adds a comment line and nothing else |
| `ModelfileBuilder.Modelfile.AddParameter` | tilekit/src/modelfile.rs:243-256 | a parameter whose value fits its kind is added and logged, any other is an error |
| `ModelfileBuilder.Modelfile.AddMessage` | tilekit/src/modelfile.rs:258-270 | a message of a known role is added and logged, any other is an error |
| `ModelfileBuilder.Modelfile.Build` | tilekit/src/modelfile.rs:272-280 | fails exactly without a FROM, and leaves that error behind |
| `ModelfileBuilder.Modelfile.Run` | tilekit/src/modelfile.rs:395-417 | a parsed command calls the builder method its instruction and kind of arguments stand for, or leaves an error |
| `ModelfileBuilder.CreateModelfile` | tilekit/src/modelfile.rs:393-429 | all commands in order; a Modelfile only if there is a FROM and no error was left |
| `ModelfileBuilder.Parse` | tilekit/src/modelfile.rs:309-314 | a text gives a Modelfile or an error as its commands do, whatever follows the last of them |
| `ModelfileMeaning.FieldsMeaning` | tilekit/src/modelfile.rs:169-280 | after any calls of the builder, failed ones among them: FROM, template, license and adapter are those of the first call of each kind, the system text is that of the last, and parameters and messages are those of the fitting calls in order |
| `ModelfileMeaning.SucceedsExactly` | tilekit/src/modelfile.rs:169-280 | no call fails if and only if there is one FROM, TEMPLATE, LICENSE and ADAPTER at most and every parameter and message fits |
| `ModelfileMeaning.CallMeaning` | tilekit/src/modelfile.rs:395-417 | which call a command asks for: its instruction in any case, with one text or with a word and a text |
| `ModelfileMeaning.ParsedMeaning` | tilekit/src/modelfile.rs:393-429 | a Modelfile that parses holds, field by field, what the commands of its text ask for |
| `ModelfileMeaning.MeantParses` | tilekit/src/modelfile.rs:393-429 | and a text whose commands ask for calls that go together, with a FROM, parses |
| `ModelfileMeaning.PrintedMeaning` | tilekit/src/modelfile.rs:296-429 | the printed form of plain calls that go together parses, and what comes out holds what the calls said |
| `Modelfiles.ParameterMeaning` | tilekit/src/modelfile.rs:243-256 | which parameters fit: a known name with a whole number, a number or a text as its kind wants; the value is kept as that kind |
| `Modelfiles.MessageMeaning` | tilekit/src/modelfile.rs:258-270 | which messages fit: those of the three roles a speaker can have |
| `LidMachine.MarkerCovers` | apps/menubar/src-tauri/src/lid.rs:217-327 | in every reachable state, with the app crashing, sentinels killed, resets refused and the setting changed from outside at any point: while sleep is off because of Tiles, the marker file exists |
| `LidMachine.GivenBack` | apps/menubar/src-tauri/src/lid.rs:286-314 | a hold turns the setting on at most once, and when it is given up after that either sleep was turned on again or both attempts failed and the marker is still there |
| `LidMachine.VerdictFinal` | apps/menubar/src-tauri/src/lid.rs:250-267 | Refused and Cleared are final: the hold does nothing any more however often it is kept |
| `LidMachine.MarkerExactly` | apps/menubar/src-tauri/src/lid.rs:47-52 | in any run at all, with processes left by crashes that go on for as long as they like: while sleep is off because of Tiles the marker is missing if and only if such a process has removed it and no hold has written it since |
| `LidMachine.LateRemoval` | apps/menubar/src-tauri/src/lid.rs:47-52 | a concrete run in which a sentinel left by a crash removes the marker of a new hold |
| `LidMachine.AwayUntilArmed` | apps/menubar/src-tauri/src/lid.rs:219-240 | a marker that is gone stays away until a hold arms |
| `LidMachine.BackWhenKept` | apps/menubar/src-tauri/src/lid.rs:250-267 | and is back once a hold that owns the setting is kept |
| `LidMachine.StepKeeps` | apps/menubar/src-tauri/src/lid.rs:217-327 | every instruction of the app, every step of a sentinel and every outside event keeps the invariant |
| `LidMachine.ReachableKeeps` | apps/menubar/src-tauri/src/lid.rs:217-327 | the invariant holds in every state some run leads to |
| `LidHold.Hold.Arm` | apps/menubar/src-tauri/src/lid.rs:219-240 | marker first, then a sentinel unless one is on guard; it succeeds only with both in place, and is a run of the step machine |
| `LidHold.Hold.Disarm` | apps/menubar/src-tauri/src/lid.rs:243-248 | no sentinel is left |
| `LidHold.Hold.Take` | apps/menubar/src-tauri/src/lid.rs:269-283 | with sleep off already the setting is left alone and not owned; otherwise the hold takes it if and only if the path is known, the marker is there or written, a sentinel is on guard or spawned and the setting is granted, and else it is refused with the sentinel gone and the marker removed as far as that works |
| `LidHold.Hold.Keep` | apps/menubar/src-tauri/src/lid.rs:250-267 | final verdicts stay; an owned hold arms again when marker or sentinel is lost, and is cleared when the setting was turned back from outside; a new hold is held or refused exactly as for taking |
| `LidHold.Hold.AwaitSentinel` | apps/menubar/src-tauri/src/lid.rs:291-296 | what the sentinel did to setting and marker, and success only if it finished |
| `LidHold.Hold.Settle` | apps/menubar/src-tauri/src/lid.rs:286-304 | what a hold owned it owns no more: sleep is on again if one of the two attempts works and as it was if neither does, and the marker is gone exactly if the sentinel finished, or the reset and the removal worked |
| `LidHold.Hold.Release` | apps/menubar/src-tauri/src/lid.rs:311-314 | the same for giving up a hold; a hold that owns nothing changes nothing |
| `LidHold.Recover` | apps/menubar/src-tauri/src/lid.rs:317-327 | sleep is turned on exactly if there is a marker and that is granted, and the marker removed exactly if sleep is on then and the removal works |
| `AwakeClock.RanExactly` | apps/menubar/src-tauri/src/awake.rs:176-180 | after any pauses and resumes at times in order the clock shows exactly the number of milliseconds the session was running in |
| `AwakeClock.ExpiredExactly` | apps/menubar/src-tauri/src/awake.rs:187-204 | a running timed session is expired exactly when its end has come, if and only if not both the end lies beyond the last millisecond and that one is reached |
| `AwakeClock.LeftUntil` | apps/menubar/src-tauri/src/awake.rs:183-204 | nothing is left exactly when the session is expired, and until then now plus what is left is the end |
| `AwakeClock.SinceExactly` | apps/menubar/src-tauri/src/awake.rs:191-196 | an open session counts up from its anchor |
| `AwakeClock.FrozenExactly` | apps/menubar/src-tauri/src/awake.rs:205-213 | the frozen reading is whole seconds and less than one second off |
| `AwakeClock.SecondsCover` | apps/menubar/src-tauri/src/awake.rs:317-319 | the seconds caffeinate is given cover the time left, by less than a second |
| `AwakeHeld.Held.Reconcile` | apps/menubar/src-tauri/src/awake.rs:291-361 | a pass leaves the session as it was if and only if its child did not end, the power allows it, it is not past its length, and it is paused, has a child or gets one; otherwise it drops it. Child, lid hold and screen follow from what is left |
| `AwakeHeld.PassMeaning` | apps/menubar/src-tauri/src/awake.rs:291-361 | what a pass makes of session, child, lid hold and screen, each said outright |
| `AwakeLife.LivesExactly` | apps/menubar/src-tauri/src/awake.rs:291-444 | from a start that was granted on, through any passes, pauses, resumes, stops and shutdowns, the session still lives if and only if none of them was a stop, a shutdown or a pass that found its child ended, no power, its length run, or a spawn that failed while it ran without a child |
| `AwakeHeld.GoneForGood` | apps/menubar/src-tauri/src/awake.rs:302-309 | a session that is gone never comes back without a new start, whatever happens to the power, and nothing is held from the next pass on |
| `AwakeHeld.ClockExact` | apps/menubar/src-tauri/src/awake.rs:379-444 | from a start on, through any passes, pauses and resumes, the clock of a session that still lives is exact |
| `AwakeHeld.SessionKept` | apps/menubar/src-tauri/src/awake.rs:413-444 | while a session lives nothing but pauses and resumes touches its clock |
| `AwakeHeld.HoldCarriesOver` | apps/menubar/src-tauri/src/awake.rs:387-391 | a new session takes over the lid hold of the old one |
| `AwakeHeld.ChildGiven` | apps/menubar/src-tauri/src/awake.rs:313-328 | a child is given the time its session has left when it is spawned, rounded up to seconds, and no time for an open session |
| `AwakeHeld.ChildCoversExactly` | apps/menubar/src-tauri/src/awake.rs:313-340 | in every run, a child that is kept lasts to the end of its session if and only if the milliseconds the session was paused since the child was spawned are no more than its time was rounded up by, which is less than a second |
| `AwakeHeld.AlwaysCovered` | apps/menubar/src-tauri/src/awake.rs:313-444 | in every run in which a pass comes between each pause and each resume after it, the child of a running session lasts to the session's end |
| `AwakeClock.RanSince` | apps/menubar/src-tauri/src/awake.rs:176-180 | from any time at which a session runs, its clock gains exactly the milliseconds it runs in |
| `AwakeClock.EndMeaning` | apps/menubar/src-tauri/src/awake.rs:183-204 | the end of a session is now plus what is left, and the end that is shown while it runs |
| `AwakeHeld.UnseenPause` | apps/menubar/src-tauri/src/awake.rs:413-444 | a pause and a resume between two passes move the end of the session but not the time its child was given |
| `AwakeHeld.Held.Start` | apps/menubar/src-tauri/src/awake.rs:379-400 | refused exactly without power; ends the old child, keeps the lid hold, and the session starts at zero with a thousand milliseconds to each second of its length |
| `AwakeHeld.Held.Stop` | apps/menubar/src-tauri/src/awake.rs:403-410 | drops the session and touches nothing else |
| `AwakeHeld.Held.Pause` | apps/menubar/src-tauri/src/awake.rs:413-425 | banks the time of a running session, once |
| `AwakeHeld.Held.Resume` | apps/menubar/src-tauri/src/awake.rs:428-444 | refused exactly without power; a running session is left alone |
| `AwakeHeld.Held.Shutdown` | apps/menubar/src-tauri/src/awake.rs:364-371 | nothing is held any more |
| `StreamAdapter.Respond` | server/backend/llama_server/openresponses_adapter.py:198-523 | for every upstream stream: events are numbered 1, 2, 3 without a gap, also after a failure; a client accepts every one of them; a completed response carries each block of thoughts opened and closed once with its text, each named call announced once under its first name and the id it had then, or a made-up one, and done once with the name, the id and the optimized arguments it had when an answer, a finish or the end closed it, arguments that come later being sent after that, the message opened once with all its text and done when no call was open at the end, and lists exactly the finished items in order; thoughts and message go by their one id throughout |
| `StreamAdapter.Translator.ReadCall` | server/backend/llama_server/openresponses_adapter.py:335-401 | part of a call: pieces before the name are kept and sent with it, and a call is announced exactly when it has a name |
| `StreamAdapter.Translator.ReadChunk` | server/backend/llama_server/openresponses_adapter.py:286-464 | after each chunk that went through, what is known of thoughts, calls and answer is what the pieces so far say |
| `StreamAdapter.Translator.Think` | server/backend/llama_server/openresponses_adapter.py:299-322 | thoughts open a block once and are sent piece by piece |
| `StreamAdapter.Translator.CloseThought` | server/backend/llama_server/openresponses_adapter.py:325-334 | a block of thoughts is closed with the text that was sent for it |
| `StreamAdapter.Translator.FinalizeTool` | server/backend/llama_server/openresponses_adapter.py:254-283 | a call without a name is left alone, a named one is done once; nothing is sent if its arguments raise |
| `StreamAdapter.Translator.FinalizeAll` | server/backend/llama_server/openresponses_adapter.py:417-427 | every open named call is finished, in index order |
| `StreamAdapter.Translator.Say` | server/backend/llama_server/openresponses_adapter.py:403-451 | an answer piece closes thoughts and calls first and then goes into the one message |
| `StreamAdapter.Translator.FinishCalls` | server/backend/llama_server/openresponses_adapter.py:453-464 | a finish for tool calls finishes the open ones |
| `StreamAdapter.Translator.CloseOut` | server/backend/llama_server/openresponses_adapter.py:474-495 | after the last chunk thoughts and calls are closed, and it is known whether any call was open |
| `StreamAdapter.Translator.Complete` | server/backend/llama_server/openresponses_adapter.py:474-523 | what a completed response must be, whatever was still open |
| `StreamAdapter.Translator.Fail` | server/backend/llama_server/openresponses_adapter.py:466-472 | a failure is one more numbered event |
| `FinishedCalls.ItemOfCall` | server/backend/llama_server/openresponses_adapter.py:388-464 | a named call has exactly one item in a completed response, with the name, the id and the optimized arguments it had when it was closed; they are all its arguments if and only if none came after the first answer or finish behind its name |
| `FinishedCalls.AllArguments` | server/backend/llama_server/openresponses_adapter.py:388-464 | without such late arguments the item carries the optimized form of everything that was said as arguments of the call |
| `FinishedCalls.LateArguments` | server/backend/llama_server/openresponses_adapter.py:388-401 | an answer or a finish between two parts of a call: its item is made of the first part, and the second is still sent after it is done |
| `FinishedCalls.WholeArguments` | server/backend/llama_server/openresponses_adapter.py:374-386 | thoughts or a part of another call between them: its item is made of both |
| `FinishedCalls.HalfAnObject` | server/backend/llama_server/openresponses_adapter.py:388-401 | for instance when the two parts are the halves of an object |
| `FinishedCalls.RenamedCall` | server/backend/llama_server/openresponses_adapter.py:351-372 | a name that comes after the first is not announced, but it is the name of the item |
| `FinishedCalls.OneIdThroughout` | server/backend/llama_server/openresponses_adapter.py:254-401 | a call that is given no other id after its name goes by the id it was announced with in every event about it and in its item: the last one given up to its name, or a made-up one without any |
| `FinishedCalls.OwnId` | server/backend/llama_server/openresponses_adapter.py:361-361 | for instance a call that comes in one piece with its own id |
| `FinishedCalls.LaterId` | server/backend/llama_server/openresponses_adapter.py:351-361 | an id that comes after the name is not announced, but it is the item's |
| `FinishedCalls.CallIdExactly` | server/backend/commons.py:308-309 | two ids are answered by the client under one call id exactly if they are equal or one is the other behind the prefix of made-up ids |
| `FinishedCalls.BrokenItem` | server/backend/commons.py:326-331 | a call closed in the middle of its arguments is done with no arguments at all |
| `FinishedCalls.BashItem` | server/backend/commons.py:326-337 | a bash command in a completed response has a timeout of a minute at most, an ls at its start has lost the word -R, and all else is as it was said |
| `StreamPieces.WholeExactly` | server/backend/llama_server/openresponses_adapter.py:388-464 | a call is closed with all of its arguments if and only if none come late, and what comes late is what is missing at the end |
| `StreamPieces.ClosedMeaning` | server/backend/llama_server/openresponses_adapter.py:414-464 | a call is closed by the first answer or finish after its name, with the name and the arguments it has then, and never without one |
| `StreamPieces.NamedMeaning` | server/backend/llama_server/openresponses_adapter.py:351-352 | a call is named exactly when some piece gave it a name |
| `StreamPieces.OneName` | server/backend/llama_server/openresponses_adapter.py:351-352 | a call that is never given another name keeps the one it was announced with |
| `StreamPieces.IdMeaning` | server/backend/llama_server/openresponses_adapter.py:351-352 | the id of a call is the last one some piece gave it, and empty if none did |
| `StreamPieces.AnnouncedMeaning` | server/backend/llama_server/openresponses_adapter.py:361-361 | it is announced under the id it has after the first piece with its name |
| `StreamPieces.KeptMeaning` | server/backend/llama_server/openresponses_adapter.py:351-352 | it keeps its id exactly if every id it is given once it is named is the announced one |
| `StreamPieces.OneMorePieceFor` | server/backend/llama_server/openresponses_adapter.py:335-386 | how one more piece changes what the stream says about a call: its arguments, its names, whether it is closed |
| `StreamPieces.OneMorePiece` | server/backend/llama_server/openresponses_adapter.py:299-348 | how one more piece changes the answer and the blocks of thoughts: a call or an answer ends the open block |
| `StreamAdapter.AllFinished` | server/backend/llama_server/openresponses_adapter.py:483-495 | with the pending calls finished every call that got a name is done |
| `ResponseEvents.SendMore` | server/backend/commons.py:13-22 | events sent one after another keep the numbering, and a client reads them in turn |
| `ResponseEvents.TakeThoughtOpened` | server/backend/commons.py:192-207 | a client with no open block takes the opening events and has an empty one |
| `ResponseEvents.TakeThoughtDone` | server/backend/commons.py:210-237 | a client that has seen the block's text takes the closing events, and has one more item |
| `ResponseEvents.TakeCallAdded` | server/backend/commons.py:152-190 | a client that does not know the call takes its announcement and the arguments kept until then |
| `ResponseEvents.TakeCallDone` | server/backend/commons.py:312-366 | a client takes the closing events of a call whose arguments it has seen, once |
| `ResponseEvents.ReadTells` | server/backend/commons.py:312-366 | at any time the items of a client are the closed blocks, the message and the calls that are done, each once, and the item of a call carries the optimized form of the arguments sent before it was done |
| `ResponseEvents.UnderOneId` | server/backend/commons.py:147-190 | a call that is steady for the client goes by one id in every event about it |
| `ResponseEvents.ItemsFit` | server/backend/commons.py:210-309 | when every event says what it says of thoughts and message under their ids, so does every item |
| `ToolArguments.OptimizeArguments` | server/backend/commons.py:415-427 | the loop and the assignments come to the change the lemmas below describe |
| `ToolArguments.FinishArguments` | server/backend/commons.py:326-337 | text that is no JSON counts as no arguments, JSON that is no object raises, and an object is optimized |
| `ToolArguments.RenameMeaning` | server/backend/commons.py:416-416 | no argument is called cmd any more, what was is found under command, others keep name and value |
| `ToolArguments.RenameExactly` | server/backend/commons.py:416-416 | under each name the last argument of that name and nothing else, with cmd called command |
| `ToolArguments.OthersKept` | server/backend/commons.py:416-418 | which is all that happens to the arguments of a tool other than bash |
| `ToolArguments.NoRecursionMeaning` | server/backend/commons.py:419-423 | a command that starts with ls still does, loses every word -R, and a second time changes nothing |
| `ToolArguments.WithoutJoins` | server/backend/commons.py:422-422 | what is kept of two series of words is kept of one after the other |
| `ToolArguments.WithoutCounts` | server/backend/commons.py:422-422 | and of every word but -R all occurrences are kept |
| `ToolArguments.Listing` | server/backend/commons.py:418-427 | for instance ls -R src, without a timeout |
| `ToolArguments.OptimizedMeaning` | server/backend/commons.py:418-427 | a bash command is sent with the timeout it was given, capped at a minute, or a minute without one; its words other than -R if it starts with ls, and itself otherwise; and all else as it was |
| `ToolArguments.OptimizedTwice` | server/backend/commons.py:415-427 | arguments that went through once come out the same a second time |
| `ToolArguments.RaisesExactly` | server/backend/commons.py:424-426 | making them raises exactly for a bash command with a timeout that is no number |
| `EngineStore.NeverPartial` | crates/tiles-engine/src/install.rs:66-89 | at every crash point of a finish what is installed is a whole folder, however the folder is listed |
| `EngineRuns.ServeAll` | crates/tiles-engine/src/install.rs:143-225 | any requests to install or delete, with operations that fail anywhere: the folder goes through a run of unpacks, finishes and deletes, and no visible folder is ever half unpacked or half deleted |
| `EngineRuns.InstallBuild` | tiles/src/daemon/engine/install.rs:317-357 | a build is put in place only once it has unpacked and passed its check; it ends installed if and only if it passed, every file operation was granted and no file was in the way, and is then what is found if and only if it has a server and a tag without a dash |
| `EngineRuns.EverSound` | crates/tiles-engine/src/install.rs:143-225 | over any run of unpacks, finishes and deletes, each from where the one before ended, failed or crashed, every visible folder is whole in every state |
| `EngineStore.InstalledIsWhole` | crates/tiles-engine/src/install.rs:66-89 | what is installed in such a state is a whole folder |
| `EngineStore.NeverPartialDeleting` | crates/tiles-engine/src/install.rs:180-194 | the same at every crash point of a delete |
| `EngineStore.NeverEmpty` | crates/tiles-engine/src/install.rs:159-177 | with another engine to fall back on, a staged server and a tag without a dash something is installed at every crash point |
| `EngineStore.NeverEmptyExactly` | crates/tiles-engine/src/install.rs:159-177 | a finish that went through never left nothing installed if and only if those three held |
| `EngineStore.ExactlyNew` | crates/tiles-engine/src/install.rs:159-177 | after it the new engine is what is installed, however the folder is listed, if and only if its server was staged and its tag has no dash |
| `EngineStore.Store.Unpack` | crates/tiles-engine/src/install.rs:144-152 | no crash point of filling the staging folder changes what is installed; it ends with all files of all archives exactly if every operation is granted and no file is in the way |
| `EngineStore.Store.DiscardStaging` | crates/tiles-engine/src/install.rs:154-156 | nothing visible changes, and the staging folder is gone exactly if every operation is granted and no file is in the way |
| `EngineStore.Store.Finish` | crates/tiles-engine/src/install.rs:159-177 | at every crash point the folder is as before, at most without the old one of that name, or has the staged build in place; it succeeds if and only if something is staged, every operation is granted and no file is in the way, and then it is the only one and downloads are gone |
| `EngineStore.Store.Delete` | crates/tiles-engine/src/install.rs:180-194 | folders only go away, one by one; none is left exactly if every operation is granted and the trash is no file, or there was none |
| `EngineStore.Store.Remove` | crates/tiles-engine/src/install.rs:211-225 | at every crash point a folder is there as it was or not at all, and nothing else changes; it succeeds exactly if every operation is granted and neither trash nor target is a file |
| `EngineStore.Store.ClearTrash` | crates/tiles-engine/src/install.rs:216-219 | deleting the trash file by file touches nothing else, and succeeds exactly if it is no file and every operation is granted |
| `EngineStore.Store.RemoveOthers` | crates/tiles-engine/src/install.rs:164-170 | every visible folder of the listing but the new one is removed |
| `Engines.InstalledMeaning` | crates/tiles-engine/src/install.rs:66-89 | something is installed exactly when some folder is named for an engine and has a server, and then it has the highest build number |
| `Engines.NameReadBack` | crates/tiles-engine/src/install.rs:70-77 | a folder named for an engine and a tag is found again under them exactly when the tag has no dash |
| `Engines.BuildNumberExactly` | crates/tiles-engine/src/install.rs:227-229 | a tag of b and a decimal number counts as that number if it fits 64 bits and as 0 otherwise |
| `Engines.LastMax` | crates/tiles-engine/src/install.rs:81-84 | a key no other exceeds, and greater than all that come after it |
| `Supervisor.StopHolds` | tiles/src/core/ui.rs:118-217 | however callers interleave with start and the loop: one child at most is spawned after the stop, none outlives the loop, done comes with its end, and the loop ends only for a stop or a failed start |
| `Supervisor.NeverStuck` | tiles/src/core/ui.rs:131-203 | the stop is not lost: until the loop has ended the supervisor or the caller that has to notify it can go on |
| `Supervisor.EndsSoon` | tiles/src/core/ui.rs:131-203 | after as many steps of those two as the rank says the loop has ended and done is signalled |
| `Supervisor.RankSmall` | tiles/src/core/ui.rs:131-203 | which are ten at most |
| `Supervisor.BackoffBounded` | tiles/src/core/ui.rs:133-189 | the backoff always is between 1 and 30 seconds |
| `Supervisor.BackoffExactly` | tiles/src/core/ui.rs:133-189 | while the loop runs the sleep is one second after the child has run long enough, and twice as long after each restart since, up to 30 seconds |
| `Supervisor.NoChildAgain` | tiles/src/core/ui.rs:206-217 | who stops and finds nothing running, or is told it is done, can rely on it: no child lives and none comes any more |
| `Supervisor.StoppedBeforeStart` | tiles/src/core/ui.rs:131-137 | a stop before the start: nothing is ever spawned |
| `Supervisor.StepKeeps` | tiles/src/core/ui.rs:118-217 | every step of the supervisor, the callers and the children keeps the invariant |
| `Sse.ReceiveAll` | tiles/src/daemon/sse.rs:6-13 | however a stream is cut into pieces, the events are those of the whole in order, and the same text is left |
| `Sse.WrittenRead` | tiles/src/daemon/sse.rs:6-27 | any events written with a name line and a data line, with comments between them, are read back in order as far as their data parses, and nothing is left |
| `Sse.WrittenText` | tiles/src/daemon/sse.rs:20-23 | what such an event is as text |
| `Sse.BlocksMeaning` | tiles/src/daemon/sse.rs:8-11 | blocks and what is left make up the text, every block ends at its first blank line, and none is left over |
| `Sse.BlocksUnique` | tiles/src/daemon/sse.rs:8-11 | text can be cut in that way only |
| `Sse.MoreText` | tiles/src/daemon/sse.rs:6-13 | more text only adds blocks, made from what was left and the new text |
| `Sse.Reader.TakeEvents` | tiles/src/daemon/sse.rs:6-13 | returns the events of all complete blocks and leaves the rest pending |
| `Sse.SseEvent` | tiles/src/daemon/sse.rs:16-27 | an event of the last name line and the last data line, none if one is missing or the data does not parse |
| `Sse.LastWith` | tiles/src/daemon/sse.rs:19-25 | the last line with a prefix |
| `Sse.LinesExactly` | tiles/src/daemon/sse.rs:19-19 | lines that each end with a line feed are read as those lines |
| `Reasoning.ReadTokens` | server/reasoning_utils.py:261-325 | however text is cut into tokens, the parser stops waiting with the token that completes the first marker, exactly if there is one, and holds the text behind it; without one what was shown and what it holds is the input, and with one the text before it was shown except for a blank or control-token rest |
| `Reasoning.StreamingReasoningParser.ProcessToken` | server/reasoning_utils.py:271-325 | while it waits, what was shown plus the buffer is the input; it leaves exactly when the marker occurs in the whole input, at its first occurrence, and shows the text before it unless that is blank or a control token |
| `Reasoning.StreamingReasoningParser.MightStart` | server/reasoning_utils.py:302-311 | whether the buffer ends in a start of the marker |
| `Reasoning.StreamingReasoningParser.Release` | server/reasoning_utils.py:300-321 | nothing is shown while the marker may have begun, and otherwise no more is kept than the marker is long |
| `Reasoning.StreamingReasoningParser.Finalize` | server/reasoning_utils.py:427-435 | at the end all of the input was shown exactly if the buffer is empty or not blank |
| `Text.LeftStripMeaning` | server/reasoning_utils.py:281-283 | stripping takes blank characters off the front and nothing else |
| `Reasoning.FoundInBuffer` | server/reasoning_utils.py:276-278 | the marker is found in the buffer exactly if it is in the whole input, at the same place |
| `Tokens.RunAll` | tiles/src/core/account/local.rs:674-858 | after any adds, renames and revokes, with writes and commits that fail anywhere: one linked token per issuer and audience at most, and no name used twice |
| `Tokens.AccountStore.SaveToken` | tiles/src/core/account/local.rs:786-858 | token and peer in one transaction: the row holds issuer, audience, kind, cid, text and nickname; a link takes the place of the one there is, every other row stays, and on a failure nothing changes |
| `Tokens.NicknameMeaning` | tiles/src/core/account/local.rs:835-836 | a nickname is given exactly if there is one and nobody else has it; otherwise a known peer keeps its name, and no other user is touched |
| `Tokens.AccountStore.RevokeToken` | tiles/src/core/account/local.rs:674-707 | with one cid per delegation and both deletes working exactly the links between the two, in both directions, are gone; without our link to the peer it fails and changes nothing |
| `Tokens.RevokeMeaning` | tiles/src/core/account/local.rs:674-707 | after that there is no link either way and every other row is as it was |
| `Tokens.AccountStore.DeleteTokenByCid` | tiles/src/core/account/local.rs:709-716 | all rows of the cid are deleted, and it fails exactly if there are none or the delete does not work |
| `Tokens.AccountStore.UpdateUser` | tiles/src/core/account/local.rs:1095-1133 | a name that is free is set for a known user, anything else is an error that changes nothing |
| `Tokens.SavedKeeps` | tiles/src/core/account/local.rs:812-833 | the upsert keeps one link per issuer and audience, and the token is found under its cid |
| `ReplyChain.ChainExactly` | tiles/src/repl.rs:1139-1209 | over any run of saved rows, failed writes and resumes every session is one chain, each row pointing to the one saved just before it, if and only if no prompt went into a session that had rows but had not started |
| `ReplyChain.SessionsExactly` | tiles/src/repl.rs:1158-1201 | over any run a session has a row of its own if and only if a prompt was saved in it: rows without a session are the replies saved before any prompt of theirs |
| `ReplyChain.ReplyBeforePrompt` | tiles/src/repl.rs:1139-1209 | a turn without a prompt in a new session and then a prompt: the reply has no session until then, and from then on two rows of the session point back to nothing |
| `ReplyChain.Converse` | tiles/src/repl.rs:1139-1209 | any conversation in which each turn has a prompt, with writes that fail anywhere and sessions resumed in between, leaves every session one chain and no row without its session |
| `ReplyChain.ReplSession.SavePrompts` | tiles/src/repl.rs:1152-1187 | the prompts of a turn in order, each with its content, up to the first that fails |
| `ReplyChain.ReplSession.SaveAgentSession` | tiles/src/repl.rs:1139-1209 | the prompts of a turn in order and then the reply, each with its content, up to the first failure, each pointing back as the chain needs |
| `ReplyChain.ReplSession.SaveRow` | tiles/src/repl.rs:1158-1201 | one row with content, role, model, session and its link back, and no other row changes; the first prompt comes with its session; a failure changes nothing |
| `ReplyChain.ReplSession.LoadSession` | tiles/src/repl.rs:843-887 | a session is resumed exactly if it has a row of its own and some row, and goes on from its last one; otherwise nothing changes |

## Left out

- HTTP routes, command line, prompts, printing, signatures, encryption, key storage, network and database internals: tables are maps, the codec of a delta is the identity.
- Spawning processes, polling, timers and log files: their outcomes are inputs, and a wait that can time out has both ends.
- GPU detection, engine choice and downloads: a first match over a short list next to the rest.
- The parser states behind the start marker, and the regular expressions over whole answers: they show text twice, so it is not conserved.
- Floats are read by a function the model does not look into, and a JSON document likewise; a NaN timeout is not modelled.
- Upper and lower case cover the ASCII letters, the only ones tags, roles and commands are made of.
- Snapshots of sessions, token usage, timestamps shown to users and the wall clock: they are stored or shown and not read back by what is modelled.
- Null columns of rows from old versions are empty texts.
- A `try_wait` or `wait` that fails for another reason than the process being alive or dead.
- The order of the arguments a tool call is sent with: a dict is a map, and only the order it is read in counts.
- Inferring a tool's name from its arguments: calls in this stream always have one.
- Under which of its ids each delta of a call goes that is given a second one after its name.
- The call id next to the id of a call in its events: it is `FinishedCalls.CallId` of that id.
- A snapshot of a session that does not parse, which fails a resume after it has taken effect.
- The `[DONE]` line after the last event, which has no number.
- The bytes a delete reports as freed, symbolic links, and archives with unsafe paths: unpacking those ends early like any other failure.
- Someone else deleting the marker file.
- Supervisor: modelled as a machine over atomic steps and not as a class, because what is proved is about its interleaving with its callers.
