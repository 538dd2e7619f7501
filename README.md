# MARCO OS decision logic in Dafny

MARCO OS is a browser-based holographic assistant written in React and
TypeScript. It has a chat console that talks to a language model, a voice loop
with wake-word standby and a live conversation mode, alarms, a streak tracker,
a memory vault, developer tools, a security gate and a first-run setup wizard.
This project models the parts of it that make decisions. These are the voice
control loop and the text command handling of the chat console, the
application shell's alarm scheduler and command handlers, and the rules of the
tracker, dashboard, developer tools, vault, gate and wizard. It also models the
license-key, learning-profile and prompt-assembly services. The project then
proves what those parts promise.

There is one module per source file, plus two shared modules:

| module | file | models |
|---|---|---|
| `Strings` | strings.dfy | the JavaScript string operations the code relies on (`toLowerCase`, `toUpperCase`, `trim`, `includes`, `startsWith`, `split`, `join`, `padStart`, `parseInt`, `toString(radix)`) over ASCII |
| `Types` | types.dfy | the records, enumerations and tables of `types.ts` and `constants.ts` |
| `Sorting` | sorting.dfy | the stable `Array.prototype.sort` with a comparator, as a stable sort by an integer key, on sequences and in place on an array |
| `App` | app.dfy | `App.tsx`: the alarm tick and snooze, custom commands, the assistant's commands (NAVIGATE, THEME, ALARM, FOCUS, SOUND, MTRACKER, MUSIC, OPEN_URL), the avatar carousel, license and setup completion; the class `AppShell` holds the component's state |
| `ChatVoice` | chat_voice.dfy | the voice loop of `components/ChatInterface.tsx`: the class `VoiceLoop` with one method per device callback, timer and button |
| `ChatPlayback` | chat_playback.dfy | the sentence chunker of `speak` |
| `ChatCommands` | chat_commands.dfy | `processResponse`, `processSlashCommand` and the routing in `handleSend` |
| `ChatMisc` | chat_misc.dfy | suggestion ranking, the voice status badge, the countdown widget's `formatTime` and the hologram's triple tap |
| `MTracker` | mtracker.dfy | `components/MTracker.tsx` |
| `Dashboard` | dashboard.dfy | `components/Dashboard.tsx` |
| `DevTools` | devtools.dfy | `components/DevTools.tsx` |
| `MemoryVault` | memory_vault.dfy | `components/MemoryVault.tsx` |
| `SecurityGate` | security_gate.dfy | `components/SecurityGate.tsx` |
| `SetupWizard` | setup_wizard.dfy | `components/SetupWizard.tsx` |
| `CryptoService` | crypto_service.dfy | `services/cryptoService.ts` |
| `LearningService` | learning_service.dfy | `services/learningService.ts` |
| `GeminiService` | gemini_service.dfy | `services/geminiService.ts`, prompt assembly only |

Code that changes component state step by step is modelled as a class. Its
fields are the component's state cells and refs, and its methods are the
handlers, device callbacks and timer callbacks. Each method states the whole new
state and the invariant it keeps. The central invariant of the voice loop is
`OneLive`: at most one speech recogniser is live, and it is the one the handle
holds. Pure code is modelled as functions, with lemmas that state what they
promise. Clocks, weekdays, random picks, storage reads and remote calls are
parameters. Timers and device callbacks are events that the environment
triggers by calling a method.

Two behaviours of the voice loop are easy to miss:

- An utterance error only sets `isSpeaking` to false
  (components/ChatInterface.tsx:504, 546). Playback does not go on, and capture
  resumes only through the live-mode effect (`VoiceLoop.LiveModeEffect`).
- There is no back-off after a recognition error. An error other than
  `aborted` or `no-speech` stops recognition
  (components/ChatInterface.tsx:851-854), and the end handler decides whether
  to restart.

## Model

| member | source | states |
|---|---|---|
| Strings.Lower | services/learningService.ts:22 | `toLowerCase` (over ASCII) keeps the length and lower-cases each character |
| Strings.Upper | services/cryptoService.ts:37 | `toUpperCase` (over ASCII) keeps the length and upper-cases each character |
| Strings.TrimStart | services/cryptoService.ts:37 | only whitespace is dropped from the front, and what is left does not start with whitespace |
| Strings.TrimStartSuffix | services/cryptoService.ts:37 | what is left after the leading whitespace is removed is a suffix of the text |
| Strings.TrimEnd | services/cryptoService.ts:37 | only whitespace is dropped from the end, and what is left does not end with whitespace |
| Strings.TrimEndPrefix | services/cryptoService.ts:37 | what is left after the trailing whitespace is removed is a prefix of the text |
| Strings.TrimIdempotent | services/cryptoService.ts:37 | trimming twice is trimming once |
| Strings.TrimPadded | services/cryptoService.ts:37 | whitespace added around a text does not change its trimmed form |
| Strings.Split | services/cryptoService.ts:42 | `split` always yields at least one piece |
| Strings.JoinSplit | services/cryptoService.ts:42 | joining the pieces of a split with the separator gives the text back |
| Strings.SplitPiecesFree | services/cryptoService.ts:42 | no piece of a split contains the separator |
| Strings.PadStart | components/DevTools.tsx:167-170 | `padStart(n, fill)` is `max(n, length)` long, ends with the text and is filled before it |
| Strings.NatToString | components/DevTools.tsx:167-170 | `toString(base)` of a natural number has at least one digit |
| Strings.NatToStringRoundTrip | components/DevTools.tsx:167-170 | the digits of `toString(base)` are digits of the base and read back as the number |
| Strings.IntToString | services/cryptoService.ts:21 | a number's decimal text is never empty |
| Strings.LeadingDigits | components/ChatInterface.tsx:563-567 | the longest prefix of decimal digits |
| Strings.ParseIntRoundTrip | components/ChatInterface.tsx:563-567 | `parseInt` reads back any integer's decimal text |
| Strings.ParseIntNaNOnBlank | components/ChatInterface.tsx:563-568 | `parseInt` of blank text is NaN |
| Sorting.KeyLeTotal | components/Dashboard.tsx:575-578 | the comparison key order is total, so every pair of elements is comparable |
| Sorting.KeyLeTrans | components/Dashboard.tsx:575-578 | the comparison key order is transitive |
| Sorting.CharCodes | components/Dashboard.tsx:584 | one code per character, equal to the character's code; ordering by these codes agrees with `localeCompare` only on the fixed-width `DD:DD` alarm times (the pattern at App.tsx:371 and the time input at components/Dashboard.tsx:879), not on strings in general |
| Sorting.Insert | services/geminiService.ts:64-67 | inserting one element adds exactly that element |
| Sorting.SortBy | components/Dashboard.tsx:575 | `Array.prototype.sort` keeps the length |
| Sorting.SortByPermutation | components/Dashboard.tsx:575 | the sorted array is a permutation of the input |
| Sorting.SortBySorted | components/Dashboard.tsx:575 | the sorted array is ordered by the comparator's key |
| Sorting.SortByStable | components/Dashboard.tsx:575 | elements with equal keys keep their input order (the sort is stable) |
| Sorting.SortBySortedIdentity | components/Dashboard.tsx:575 | an array already in order is left as it is |
| Sorting.SortedCut | services/geminiService.ts:64-70 | the first `n` after sorting come from the input, are in order, and no left-out element sorts before a kept one |
| Sorting.InsertInto | services/geminiService.ts:64-67 | one insertion step on the array: the prefix is untouched and the element lands in its ordered place |
| Sorting.SortInPlace | services/geminiService.ts:64-67 | sorting the array in place leaves exactly the stable sort of its old contents |
| App.AppViewKeyInjective | types.ts:2-10 | distinct views have distinct enum keys, so `AppView[payload]` names at most one view |
| App.ViewByOwnKey | App.tsx:330 | looking a view up by its own key finds that view |
| App.LastDueNone | App.tsx:192-201 | no alarm is found exactly when no alarm in the list is due this minute |
| App.LastDueLast | App.tsx:192-201 | the alarm found by the `forEach` is a due alarm with no due alarm after it (the last due one wins) |
| App.FindDue | App.tsx:192-201 | the scan over the alarms returns the last due alarm |
| App.AfterFire | App.tsx:204-215 | after a ring, a one-shot unsnoozed alarm is deactivated, a snoozed one has its snooze cleared, a repeating one is unchanged, and every other alarm is untouched |
| App.OneShotRingsOnce | App.tsx:194-210 | a one-shot alarm that rang is never due again |
| App.SnoozeEndClears | App.tsx:196-215 | after a snoozed alarm rings its snooze is gone, so it is due again only at its own time and day |
| App.Snoozing | App.tsx:224-236 | snoozing rearms exactly the active alarms set for this minute or whose snooze ends within a minute, and keeps every other alarm |
| App.RearmedRingsAfterFive | App.tsx:195-230 | a rearmed alarm is due exactly from five minutes after the snooze on |
| App.SnoozeRung | App.tsx:224-236 | the corrected snooze: the alarm that rang is rearmed as well as those the as-written guard selects |
| App.SnoozeRungRearms | App.tsx:224-236 | with the corrected snooze, the alarm that rang is due exactly from five minutes later on |
| App.OneShotSnoozeLost | App.tsx:206-229 | a one-shot alarm that rang is deactivated, so the snooze guard skips it and it never rings again |
| App.NormalTrigger | App.tsx:265 | the stored trigger starts with `/`, and is the typed trigger, or `/` followed by it |
| App.NewCommand | App.tsx:263-270 | registration is refused exactly when the trigger or payload is empty or the normalised trigger is taken; otherwise the new command holds the normalised trigger, action and payload |
| App.RegisterKeepsUnique | App.tsx:266-269 | adding an accepted command keeps the triggers unique |
| App.WithoutCommand | App.tsx:274-277 | deletion keeps exactly the commands with another id, and leaves the list alone when no command has that id; a one-command list loses its command exactly when the id matches |
| App.WithoutCommandAppend | App.tsx:274-277 | deleting from a concatenation deletes from each part, so the kept commands stay in their order and multiplicity |
| App.DeleteKeepsUnique | App.tsx:274-277 | deleting a command keeps the triggers unique |
| App.UnderscoredSpaceless | App.tsx:352 | replacing runs of whitespace by `_` leaves whitespace-free text unchanged |
| App.KeyLookup | App.tsx:353-359 | an exact key match is preferred; with none, the first key that contains the input or is contained in it; none only when no key matches either way |
| App.ThemeKeyInjective | types.ts:12-24 | distinct themes have distinct keys |
| App.ThemeKeyNormal | App.tsx:352 | a theme key is unchanged by the trim, upper-case and underscore normalisation |
| App.ThemeByOwnKey | App.tsx:351-366 | a THEME command naming a theme's key selects that theme |
| App.BlankThemeIsFirst | App.tsx:352-359 | a blank THEME payload normalises to "", which every key contains, so the first theme (NEON_BLUE) is selected |
| App.LabelFrom | App.tsx:371 | the alarm label falls back to `AI ALARM` and is never empty |
| App.NewAlarm | App.tsx:371 | an alarm made by the ALARM command has an `NN:NN` time, the given id, a non-empty label, is active, one-shot, with the SIREN sound and no snooze |
| App.ClockAlone | App.tsx:371 | a payload that is only a trimmed clock time gives an alarm with the default label |
| App.ClockWithText | App.tsx:371 | a clock time and a non-empty label give an alarm with that label |
| App.AlarmDefaultLabel | App.tsx:371 | `HH:MM` alone makes an active one-shot alarm labelled `AI ALARM` |
| App.AlarmWithLabel | App.tsx:371 | `HH:MM;;label` makes an active one-shot alarm with that label |
| App.AlarmAcceptsAnyDigits | App.tsx:371 | the `^\d{2}:\d{2}$` check accepts times such as `99:99` that are not clock times |
| App.AlarmCommand | App.tsx:371 | the ALARM command changes only the alarm list |
| App.AlarmCommandOrdered | App.tsx:371 | an accepted alarm is added to the alarms (as multisets) and the list stays sorted by time; a refused payload changes nothing |
| App.ToggleFocus | App.tsx:240-248 | focus is switched on exactly when a non-zero duration is given, with that duration, the current time and the FOCUS_SESSION label; otherwise it is switched off keeping its duration and label |
| App.FocusCommand | App.tsx:372 | the FOCUS command changes only the focus mode |
| App.FocusParsed | App.tsx:372 | a payload that parses to `n` turns focus on exactly when `n` is non-zero, for `n` minutes |
| App.FocusMinutes | App.tsx:372 | a FOCUS command with a written number `n` turns focus on exactly when `n` is non-zero, for `n` minutes |
| App.Navigate | App.tsx:331-347 | navigation changes only the view and the messages |
| App.UrlToOpen | App.tsx:376 | a URL is opened exactly when the payload is non-empty; it starts with `http` and is the trimmed payload or `https://` before it |
| App.UrlToOpenIdempotent | App.tsx:376 | normalising an opened URL again gives the same URL |
| App.ThemeCommand | App.tsx:351-366 | the THEME command changes only the theme and the theme preference, never the command counts |
| App.SoundCommand | App.tsx:374 | SOUND ON and OFF set the sound flag, any other payload leaves it, and nothing else changes |
| App.TrackerCommand | App.tsx:375 | the MTRACKER command changes only the tracker data |
| App.FindTrack | App.tsx:382 | no track is found iff no vault track's name equals the payload ignoring case; otherwise the first such track is found |
| App.MusicCommand | App.tsx:378-398 | MUSIC changes only the music state and the messages, and an empty payload changes nothing |
| App.MusicOutcome | App.tsx:378-398 | MUSIC appends `ERROR: Track '<payload>' not found in Sonic Vault.` exactly when the payload is non-empty and no vault track matches it ignoring case; otherwise a non-empty payload plays a matching track through the given URL and the messages stay |
| App.HandleFrame | App.tsx:329-400 | a command never changes the master profile; only NAVIGATE changes the view; the command counts are left to the profile update |
| App.NavigateGuard | App.tsx:331-347 | navigation reaches ADMIN_GENESIS exactly when the payload names it and the licence key is the master key; without the key a denial message is appended |
| App.DispatchCounts | App.tsx:329 | every AI command adds one to that command's count and stamps the time, before it runs |
| App.AdminNeedsMasterKey | App.tsx:331-347 | `NAVIGATE ADMIN_GENESIS` opens the admin view exactly when the licence key is the master key, and appends the denial otherwise |
| App.AdminKeyOnly | App.tsx:330 | only the key `ADMIN_GENESIS` names the admin view |
| App.NavigateDispatched | App.tsx:326-347 | through the full command handler, the admin view is reached exactly as the guard allows |
| App.AdminOnlyByNavigate | App.tsx:326-400 | no command other than `NAVIGATE ADMIN_GENESIS` with the master key leads into the admin view |
| App.NavigateByKey | App.tsx:330-346 | navigating by a view's own key shows that view (other than the admin view) |
| App.ThemeCommandSets | App.tsx:351-366 | a matched theme is applied and its preference count goes up by one; an unmatched payload changes nothing |
| App.RelapseRecord | App.tsx:375 | a relapse sets the date to now, the streak to 0 and the status to RELAPSED, appends exactly one history entry dated now after the old ones, and the best streak is at least the old best and the recorded streak |
| App.TrackerCommands | App.tsx:375 | MTRACKER RELAPSE is the tracker screen's reset whenever a last relapse is stored, but counts the streak from the epoch for a zero timestamp, where the screen counts 0; CHECKIN only sets the status to CLEAN |
| App.AvatarPage | App.tsx:324 | the carousel shows three avatars |
| App.CarouselInverse | App.tsx:316-317 | next and previous stay in range and undo each other |
| App.NextShiftsPage | App.tsx:316-324 | after `next` the first two visible avatars are the last two visible before |
| App.PageShift | App.tsx:316-324 | on any circular table of two or more entries, the page one step on begins with the last two entries of the current page |
| App.AvatarKeysDistinct | types.ts:42-62 | the avatar keys are pairwise distinct |
| App.PageDistinct | App.tsx:324 | the three visible avatars are distinct |
| App.SetupWelcome | App.tsx:173 | the setup welcome starts with `**IDENTITY CONFIRMED: ` followed by the upper-cased name |
| App.AppShell.constructor | App.tsx:90-93 | the shell starts unlicensed, not set up, unauthenticated, with an empty command form and at avatar 0 |
| App.AppShell.AlarmTick | App.tsx:184-218 | a tick in an already checked minute does nothing; otherwise the last due alarm (if any) raises the alarm overlay, sounds, is remembered as the ringing alarm and is updated as after a ring; every other field keeps its value |
| App.AppShell.AlarmClose | App.tsx:221-238 | closing stops the sound and the overlay, and a snooze rearms the alarms the guard selects (as written); every other field keeps its value |
| App.AppShell.AlarmCloseRung | App.tsx:221-238 | corrected close: a snooze re-arms the alarm that rang as well as those the guard selects, so a snoozed one-shot alarm rings five minutes later; every other field keeps its value |
| App.AppShell.EditCommandForm | App.tsx:263 | the form fields hold what was typed; every other field keeps its value |
| App.AppShell.RegisterCommand | App.tsx:263-272 | a refused registration changes nothing; an accepted one appends the command and clears the form; unique triggers stay unique; every other field keeps its value |
| App.AppShell.DeleteCommand | App.tsx:274-278 | deletion removes the commands with that id and keeps triggers unique; every other field keeps its value |
| App.AppShell.AICommand | App.tsx:326-400 | the state after an AI command is the dispatch of that command (MUSIC included), and OPEN_URL opens its normalised URL; every other field keeps its value |
| App.AppShell.OpenUrl | App.tsx:376 | OPEN_URL with a payload opens exactly one normalised URL |
| App.AppShell.NextAvatar | App.tsx:316 | the carousel index moves to the next one and stays in range; every other field keeps its value |
| App.AppShell.PrevAvatar | App.tsx:317 | the carousel index moves to the previous one and stays in range; every other field keeps its value |
| App.AppShell.VisibleAvatars | App.tsx:324 | the loop returns the page of three avatars at the current index |
| App.AppShell.LicenseSuccess | App.tsx:129-162 | the master key installs the creator profile and grants master access at once; any other key is only stored in the profile; every other field keeps its value |
| App.AppShell.Authenticate | App.tsx:404-407 | authentication sets the role and the authenticated flag; every other field keeps its value |
| App.AppShell.SetupComplete | App.tsx:164-182 | completing setup stores the profile, replaces the messages with the welcome and authenticates as MASTER; every other field keeps its value |
| App.AdminAfterLicense | App.tsx:331-347 | after a licence, `NAVIGATE ADMIN_GENESIS` opens the admin view exactly when that licence was the master key |
| ChatVoice.OneLiveAtMostOne | components/ChatInterface.tsx:776-779 | when every live recogniser is the one the handle holds, at most one recogniser is live, and none when there is no handle |
| ChatVoice.Started | components/ChatInterface.tsx:774-779 | starting does nothing while a handle is held; otherwise a new recogniser is created, stored as the handle and running |
| ChatVoice.StartedOneLive | components/ChatInterface.tsx:774-779 | starting keeps at most one live recogniser, and a fresh start makes the new one the only live one |
| ChatVoice.Stopped | components/ChatInterface.tsx:919-923 | stopping asks the held recogniser to stop and drops the handle |
| ChatVoice.StoppedNoneLive | components/ChatInterface.tsx:919-923 | after a stop no recogniser is live |
| ChatVoice.Told | components/ChatInterface.tsx:828-845 | `recognition.stop()` on a recogniser ends only that recogniser and keeps the handle |
| ChatVoice.Ended | components/ChatInterface.tsx:797-798 | as written, any recogniser's end clears the handle, whichever recogniser it holds |
| ChatVoice.EndedStrandsLive | components/ChatInterface.tsx:797-798 | when an old recogniser ends after a new one was started, the new one stays live without a handle, so more than one can become live |
| ChatVoice.EndedChecked | components/ChatInterface.tsx:797-798 | corrected: an end clears the handle only when it is that recogniser's own, and keeps at most one live |
| ChatVoice.Silent | components/ChatInterface.tsx:441-509 | nothing is being spoken at the start |
| ChatVoice.Next | components/ChatInterface.tsx:466-506 | the sequencer speaks the next chunk if any is left, else stops speaking |
| ChatVoice.Launch | components/ChatInterface.tsx:441-551 | launching starts with the first chunk, or stops speaking at once when there is none |
| ChatVoice.ChunkEnded | components/ChatInterface.tsx:500-544 | the end of a chunk moves to the next one, after a 600 ms pause when counting |
| ChatVoice.PauseEnded | components/ChatInterface.tsx:522-543 | after the count pause the next number is spoken, or the count ends |
| ChatVoice.ChunkFailed | components/ChatInterface.tsx:504-546 | a failed utterance stops speaking and nothing more is spoken |
| ChatVoice.FinishPlaysAll | components/ChatInterface.tsx:466-506 | without failures the sequencer speaks every remaining chunk, in order, and then stops speaking |
| ChatVoice.LaunchPlaysAll | components/ChatInterface.tsx:441-508 | a launched text is spoken chunk by chunk exactly once, in order |
| ChatVoice.CountChunks | components/ChatInterface.tsx:517-530 | a count to `n` speaks `n` numbers, none for `n ≤ 0` |
| ChatVoice.CountChunksRead | components/ChatInterface.tsx:517-530 | the `i`-th number spoken reads as `i + 1` |
| ChatVoice.AfterSend | components/ChatInterface.tsx:684-738 | a routed send stops capture, clears the indicators, detaches the image and logs the text |
| ChatVoice.CountStep | components/ChatInterface.tsx:511-551 | a count launches its numbers, stops capture, and resumes conversation capture at once only when it has no numbers and live mode is on |
| ChatVoice.AfterCounts | components/ChatInterface.tsx:562-564 | a reply without counts leaves capture and playback alone |
| ChatVoice.CountsLast | components/ChatInterface.tsx:562-564 | of several counts only the last one's numbers are left playing, launched from where the counts before it left off |
| ChatVoice.TranscriptsShare | components/ChatInterface.tsx:818-821 | every result's text goes to exactly one of the final and interim transcripts |
| ChatVoice.Transcripts | components/ChatInterface.tsx:815-821 | the loop gathers the final results' texts and the interim results' texts, each in order |
| ChatVoice.WakeHeardIff | components/ChatInterface.tsx:841-844 | the wake word is heard exactly when the lower-cased transcript contains `marco`, `wake up` or `system online` |
| ChatVoice.Hear | components/ChatInterface.tsx:823-838 | a non-blank final transcript is sent at once, trimmed; otherwise non-blank interim text waits for silence |
| ChatVoice.TimePhraseHours | components/ChatInterface.tsx:859-863 | Morning is 5–11, Afternoon 12–16, and Evening every other hour |
| ChatVoice.VoiceLoop.constructor | components/ChatInterface.tsx:774-956 | the loop starts with no recogniser, nothing spoken, not listening and not in live mode |
| ChatVoice.VoiceLoop.StartRecognition | components/ChatInterface.tsx:774-779 | starting is skipped without speech support or while a handle is held, and keeps at most one recogniser live |
| ChatVoice.VoiceLoop.StopRecognition | components/ChatInterface.tsx:919-929 | stopping leaves no live recogniser and clears listening, standby, silence timer, volume and interim text |
| ChatVoice.VoiceLoop.OnStart | components/ChatInterface.tsx:785-795 | a conversation recogniser shows listening; a wake-word one shows standby |
| ChatVoice.VoiceLoop.Send | components/ChatInterface.tsx:675-714 | a blank send without an image changes nothing at all; any other send stops recognition, clears the indicators and the image, and is routed as a slash command, a delayed alias or a model request; only a model request sets `isLoading` |
| ChatVoice.VoiceLoop.Deliver | components/ChatInterface.tsx:826-830 | a final transcript tells its recogniser to stop and is then sent, with the route's effect: a slash command run, an alias due, or a reply awaited with loading on |
| ChatVoice.VoiceLoop.Dispatch | components/ChatInterface.tsx:684-738 | a routed send stops capture, clears the indicators and records the text; a slash command runs at once, an alias is due, a model request awaits its reply with loading on, and the slash and alias routes leave loading as it was |
| ChatVoice.VoiceLoop.RunBoot | components/ChatInterface.tsx:877-912 | the boot sequence turns live mode on and schedules one greeting |
| ChatVoice.VoiceLoop.OnResult | components/ChatInterface.tsx:812-849 | the silence timer is cleared first and the final and interim transcripts are gathered; in conversation mode a heard text is sent on its route after its recogniser is told to stop, otherwise the interim text shows and the timer holds the text waiting, with boot state unchanged; in standby the recogniser is told to stop and live mode boots with one greeting due exactly when the wake word is heard, and otherwise only the timer is cleared |
| ChatVoice.VoiceLoop.Converse | components/ChatInterface.tsx:812-838 | the silence timer is cleared; a heard final text is sent at once on its route after its recogniser is told to stop; otherwise the interim text shows, the timer holds the text waiting, if any, and nothing else changes |
| ChatVoice.VoiceLoop.Standby | components/ChatInterface.tsx:812-847 | in standby the silence timer is cleared and the interim text kept; the wake word tells the recogniser to stop, turns live mode on and schedules one greeting; anything else changes nothing more |
| ChatVoice.VoiceLoop.SilenceFire | components/ChatInterface.tsx:834-837 | after two seconds of silence the timer is cleared, its recogniser is told to stop, and the text is sent on its route; a blank text is dropped and nothing else changes |
| ChatVoice.VoiceLoop.OnError | components/ChatInterface.tsx:851-854 | `aborted` and `no-speech` are ignored; any other error stops recognition |
| ChatVoice.VoiceLoop.RestartAfterEnd | components/ChatInterface.tsx:803-809 | when idle by the values seen at creation, live mode restarts a conversation recogniser and wake word mode a standby one |
| ChatVoice.VoiceLoop.OnEnd | components/ChatInterface.tsx:797-810 | as written: any end clears the handle and the indicators and may restart a recogniser |
| ChatVoice.VoiceLoop.OnEndChecked | components/ChatInterface.tsx:797-810 | corrected: a stale end leaves the current recogniser and indicators alone; the held recogniser's end clears the handle and the indicators and restarts capture as the as-written end does; at most one recogniser stays live |
| ChatVoice.VoiceLoop.Speak | components/ChatInterface.tsx:441-509 | with voice on, speaking stops recognition, clears the indicators and launches the chunk sequence of the cleaned text; with voice off nothing changes |
| ChatVoice.VoiceLoop.ResumeAfterCount | components/ChatInterface.tsx:523-527 | a finished count restarts a conversation recogniser in live mode |
| ChatVoice.VoiceLoop.VoiceCount | components/ChatInterface.tsx:511-551 | with voice on, capture and playback become exactly `CountStep` of the old ones (recognition stopped, the numbers 1 to `n` launched, conversation capture resumed at once in live mode when there are no numbers) and the indicators are cleared; with voice off nothing changes |
| ChatVoice.VoiceLoop.ChunkEnd | components/ChatInterface.tsx:500-544 | a chunk's end advances the sequence |
| ChatVoice.VoiceLoop.ChunkError | components/ChatInterface.tsx:504-546 | an utterance error stops speaking |
| ChatVoice.VoiceLoop.CountPauseFire | components/ChatInterface.tsx:522-543 | the pause's timer speaks the next number or ends the count and resumes live listening |
| ChatVoice.VoiceLoop.GreetingFire | components/ChatInterface.tsx:909-912 | the scheduled greeting is launched after recognition stops; with voice off only the timer is gone |
| ChatVoice.VoiceLoop.AliasFire | components/ChatInterface.tsx:710-712 | the delayed alias runs its slash command and clears the processing flag |
| ChatVoice.VoiceLoop.Reply | components/ChatInterface.tsx:725-738 | loading and processing end; capture and playback become exactly `AnswerStep` of the cleaned text, taken from the state `AfterCounts` of the reply's effects leaves (voice on) or the old state (voice off); a non-empty text with voice on is playing with the indicators cleared |
| ChatVoice.VoiceLoop.Answer | components/ChatInterface.tsx:728-738 | loading and processing end; capture and playback become exactly `AnswerStep` of the old ones: a non-empty answer is launched after recognition stops (nothing changes with voice off), and an empty one starts a conversation recogniser in live mode and leaves playback alone |
| ChatVoice.VoiceLoop.RunCounts | components/ChatInterface.tsx:562-564 | with voice on, capture and playback end as `AfterCounts` of the effects, the indicators cleared if any count ran; without a count, or with voice off, nothing changes |
| ChatVoice.VoiceLoop.LiveModeEffect | components/ChatInterface.tsx:365-391 | while busy, recognition is stopped; otherwise a 300 ms live restart or a 500 ms standby restart is armed exactly when the source does |
| ChatVoice.VoiceLoop.RestartFire | components/ChatInterface.tsx:373-388 | the armed timer starts a conversation recogniser if still idle, or a standby one |
| ChatVoice.VoiceLoop.ToggleLiveMode | components/ChatInterface.tsx:931-941 | toggling stops recognition and flips live mode: on boots with one greeting due and playback untouched; off boots nothing and, with voice on, launches "Voice systems standby." |
| ChatVoice.VoiceLoop.ToggleMicButton | components/ChatInterface.tsx:943-955 | the indicators are cleared; while listening the mic button stops recognition and leaves live mode; otherwise it restarts a conversation recogniser |
| ChatVoice.VoiceLoop.SetWakeWord | components/ChatInterface.tsx:806 | the wake word setting is what was chosen |
| ChatVoice.VoiceLoop.Attach | components/ChatInterface.tsx:658-668 | an attached image is held for the next send |
| ChatVoice.InStandby | components/ChatInterface.tsx:774-795 | a loop in wake-word standby with one recogniser held |
| ChatVoice.StaleEndLeavesTwoLive | components/ChatInterface.tsx:797-810 | as written: mic button in standby, then the old recogniser's end, leaves two recognisers live |
| ChatVoice.StaleEndChecked | components/ChatInterface.tsx:797-810 | corrected: the same steps leave exactly one recogniser live |
| ChatPlayback.RunEnd | components/ChatInterface.tsx:449 | a greedy run of terminators or non-terminators ends where the kind changes |
| ChatPlayback.Chunks | components/ChatInterface.tsx:449 | `speak` always has at least one chunk |
| ChatPlayback.SentencesShape | components/ChatInterface.tsx:449 | every match is non-terminators followed by terminators |
| ChatPlayback.TailNoTerminator | components/ChatInterface.tsx:449 | the text after the last match has no terminator |
| ChatPlayback.SentencesCover | components/ChatInterface.tsx:449 | the matches followed by the tail are the text without its leading terminators, in order |
| ChatPlayback.ChunksDropTail | components/ChatInterface.tsx:449 | as written, when there is a sentence the chunks spoken are the text without its tail, so a non-empty tail is never spoken |
| ChatPlayback.SentenceThenText | components/ChatInterface.tsx:449 | "sentence, terminator, unterminated text" is spoken as the sentence alone, and the rest is lost |
| ChatPlayback.SpokenChunks | components/ChatInterface.tsx:449 | the corrected chunker always has at least one chunk |
| ChatPlayback.SpokenChunksKeepText | components/ChatInterface.tsx:449 | the corrected chunks give back the whole text but its leading terminators, and none is empty |
| ChatPlayback.SpokenChunksShape | components/ChatInterface.tsx:449 | every corrected chunk is a sentence except a kept tail, which comes last and has no terminator |
| ChatCommands.WordRun | components/ChatInterface.tsx:554 | the `(\w+)` group takes the longest run of word characters |
| ChatCommands.PayloadEnd | components/ChatInterface.tsx:554 | the lazy `(.*?)\]\]` stops at the first `]]`, and fails when a line terminator comes before any `]]` |
| ChatCommands.TagAt | components/ChatInterface.tsx:554 | a tag found at the start of the text is literally `[[EXEC:` command `|` payload `]]`, with a non-empty word-character command and a payload without line terminators |
| ChatCommands.ScanTags | components/ChatInterface.tsx:554-557 | the scan splits the reply into one more gap than tags |
| ChatCommands.ScanRoundTrip | components/ChatInterface.tsx:554-594 | the gaps interleaved with the tags' texts give back the raw reply: nothing is lost or reordered by the scan |
| ChatCommands.ProcessResponse | components/ChatInterface.tsx:553-597 | the loop performs the effects of the tags in order and returns the trimmed text with every tag removed |
| ChatCommands.Reassemble | components/ChatInterface.tsx:557-594 | the loop collects the effects of the tags in order and the text between them |
| ChatCommands.DispatchInOrder | components/ChatInterface.tsx:557-594 | the commands forwarded to the host are exactly the non-COUNT, non-TIMER tags, in order, with their payloads |
| ChatCommands.NaNIgnored | components/ChatInterface.tsx:562-576 | a COUNT or TIMER tag whose payload does not parse as a number does nothing |
| ChatCommands.TimerWidget | components/ChatInterface.tsx:566-576 | a TIMER tag posts one system command-result message `[[WIDGET:TIMER|n]]` carrying the parsed seconds |
| ChatCommands.CountStarts | components/ChatInterface.tsx:562-564 | a COUNT tag starts a voice count to the parsed number |
| ChatCommands.Keyword | components/ChatInterface.tsx:600-601 | the keyword is the lower-cased command up to its first space |
| ChatCommands.KeywordLower | components/ChatInterface.tsx:600-601 | the keyword is already lower case |
| ChatCommands.FindTrigger | components/ChatInterface.tsx:604 | the custom command found is the first whose trigger equals the keyword; none only when no trigger does |
| ChatCommands.CustomPrecedence | components/ChatInterface.tsx:602-617 | a keyword matching a custom trigger counts the keyword and runs the first such custom command, before any built-in |
| ChatCommands.UnknownKeyword | components/ChatInterface.tsx:621-652 | a keyword outside the built-in list, and only such a keyword, posts the `NOT RECOGNIZED` error |
| ChatCommands.FirstContained | components/ChatInterface.tsx:708 | the alias found is the first table key contained in the lower-cased text; none only when no key is contained |
| ChatCommands.Routing | components/ChatInterface.tsx:679-714 | a send is ignored exactly when the text is blank and no image is attached; otherwise `/` text is a slash command, text containing an alias key runs the first such alias, and anything else is asked of the model |
| ChatMisc.Dedupe | components/ChatInterface.tsx:405-410 | `Array.from(new Set(..))`: the result has no repeats and holds exactly the input's elements |
| ChatMisc.DedupeDistinct | components/ChatInterface.tsx:405-410 | de-duplicating a list without repeats leaves it unchanged |
| ChatMisc.UserHistory | components/ChatInterface.tsx:407 | the history holds exactly the contents of the user's messages |
| ChatMisc.Candidates | components/ChatInterface.tsx:397-410 | the candidates have no repeats and are exactly the default commands, the custom triggers, the predefined phrases and the user's past messages |
| ChatMisc.Matching | components/ChatInterface.tsx:412-414 | the matches are exactly the candidates that contain the term case-insensitively without equalling it |
| ChatMisc.Suggestions | components/ChatInterface.tsx:395-429 | at most five suggestions are shown |
| ChatMisc.SuggestionsBlank | components/ChatInterface.tsx:396-399 | blank input shows no suggestions |
| ChatMisc.SuggestionsRanked | components/ChatInterface.tsx:395-429 | for non-blank input the suggestions are the ranked matches of the lower-cased input among distinct candidates |
| ChatMisc.SuggestKeyOrder | components/ChatInterface.tsx:416-424 | the sort key puts prefix matches first and, among equals, higher usage counts first |
| ChatMisc.RankedCut | components/ChatInterface.tsx:416-428 | the suggestions are the sorted matches cut to five |
| ChatMisc.RankedChosen | components/ChatInterface.tsx:412-428 | the suggestions are distinct matching candidates; all of the matches when there are at most five, else exactly five |
| ChatMisc.RankedSorted | components/ChatInterface.tsx:416-424 | the suggestions are sorted by the comparator's key |
| ChatMisc.RankedOrdered | components/ChatInterface.tsx:416-424 | no suggestion that starts with the term comes after one that does not, and among those alike usage counts do not increase |
| ChatMisc.RankedBest | components/ChatInterface.tsx:416-428 | a match left out of the five ranks no better than any suggestion shown |
| ChatMisc.StatusMeaning | components/ChatInterface.tsx:356-362 | the status is PROCESSING, SPEAKING, LISTENING, STANDBY or IDLE exactly when the earlier conditions fail and its own holds |
| ChatMisc.JsRem | components/ChatInterface.tsx:31 | the remainder of JavaScript `%` has the sign of the dividend and is smaller than the divisor |
| ChatMisc.SecondsField | components/ChatInterface.tsx:32 | the seconds are written as two digits that read back as the seconds |
| ChatMisc.FormatTimeRoundTrip | components/ChatInterface.tsx:29-33 | the countdown display `m:ss` of a non-negative number of seconds reads back as that number |
| ChatMisc.FormatTimeShape | components/ChatInterface.tsx:29-33 | the display is the whole minutes, a colon and the seconds padded to two digits |
| ChatMisc.MinutesField | components/ChatInterface.tsx:32 | the minutes field has no colon and reads back as the minutes |
| ChatMisc.HoloTapper.constructor | components/ChatInterface.tsx:957-970 | the tap counter starts at zero, with no timer armed |
| ChatMisc.HoloTapper.Click | components/ChatInterface.tsx:957-970 | the third click changes the avatar and resets the count; an earlier click counts and rearms the 600 ms reset |
| ChatMisc.HoloTapper.TimeoutFires | components/ChatInterface.tsx:967 | the reset timer clears the count without changing the avatar |
| ChatMisc.HoloTapper.TripleTap | components/ChatInterface.tsx:957-970 | three quick clicks change the avatar exactly once and leave the counter reset |
| MTracker.CleanDiff | components/MTracker.tsx:69-70 | the elapsed time is never negative |
| MTracker.CalculateDecomposes | components/MTracker.tsx:67-77 | `d`, `h < 24`, `m < 60`, `s < 60` decompose the clean time: `d·86400000 + h·3600000 + m·60000 + s·1000 ≤ diff <` that `+ 1000` |
| MTracker.LastAtMost | components/MTracker.tsx:80 | the reversed `find`: the last index whose rank needs at most `d` days, with every later rank needing more |
| MTracker.FirstAbove | components/MTracker.tsx:321 | the first index whose rank needs more than `d` days, with every earlier rank needing at most `d` |
| MTracker.RanksAscending | constants.ts:261-271 | the rank table is ascending in days and starts at 0 days |
| MTracker.Reached | components/MTracker.tsx:80 | the chosen rank is in the table, needs at most `d` days when any does, and no reached rank needs more days |
| MTracker.NotReached | components/MTracker.tsx:321 | the next rank is the unreached table rank needing fewest days, or the synthetic rank when every table rank is reached |
| MTracker.CurrentRank | components/MTracker.tsx:80 | the current rank is the highest table rank needing at most `d` days (the first entry as fallback) |
| MTracker.NextRank | components/MTracker.tsx:321 | the next rank needs more than `d` days: the lowest such table rank, else LEGEND at `d + 100` |
| MTracker.RanksBracket | components/MTracker.tsx:321-322 | for `d ≥ 0` the current rank needs at most `d` days and the next rank more |
| MTracker.PerformReset | components/MTracker.tsx:169-184 | the relapse date becomes now, the streak 0 and the status RELAPSED; exactly one history entry is appended; the best streak becomes the larger of the old best and the elapsed whole hours |
| MTracker.ResetAppendsOne | components/MTracker.tsx:182 | the history grows by exactly one entry, at the end, dated now, and the old entries are kept |
| MTracker.Countdowns.constructor | components/MTracker.tsx:48-57 | no panic, panic timer 0, not surfing, surf timer 600 |
| MTracker.Countdowns.Panic | components/MTracker.tsx:92-96 | panic mode turns on and a new panic starts its countdown at 60; surfing is untouched |
| MTracker.Countdowns.AbortPanic | components/MTracker.tsx:92-109 | panic mode ends and the timer stays where it was |
| MTracker.Countdowns.PanicTick | components/MTracker.tsx:96-104 | a tick counts down by one; from 1 or less it reaches 0 and panic mode ends; outside panic nothing changes |
| MTracker.Countdowns.ToggleSurfer | components/MTracker.tsx:200-208 | surfing flips; cancelling resets the timer to 600 |
| MTracker.Countdowns.SurfTick | components/MTracker.tsx:112-125 | while surfing a tick counts down by one; reaching 0 ends surfing and resets the timer to 600 |
| MTracker.Countdowns.RunPanic | components/MTracker.tsx:92-109 | ticking a started panic to the end leaves the timer at 0 and panic mode off |
| MTracker.LastSecondRelapseLost | components/MTracker.tsx:239-242 | as written: a relapse in the last second of a day lies on no day of the month |
| MTracker.ConsecutiveOrdered | components/MTracker.tsx:233-240 | consecutive days are ordered |
| MTracker.DaysPartitionMonth | components/MTracker.tsx:239-242 | corrected: with half-open day bounds every timestamp of the month lies in exactly one day |
| MTracker.PassedCount | components/MTracker.tsx:245-246 | at most one passed day per day of the month |
| MTracker.CleanCount | components/MTracker.tsx:243-247 | clean days, with the half-open day test, are never more than passed days |
| MTracker.CountMonth | components/MTracker.tsx:230-248 | the loop's `successCount` and `totalPassedDays` are the clean (half-open day test) and passed day counts, with `successCount ≤ totalPassedDays ≤` days |
| MTracker.HasRelapseLoop | components/MTracker.tsx:242 | `history.some(...)` is true iff some entry lies in the half-open day |
| MTracker.SuccessRate | components/MTracker.tsx:288 | the rate lies in 0..100; it is 100 when no day has passed or every passed day is clean, and 0 when no day is clean |
| MTracker.RoundedPercent | components/MTracker.tsx:288 | `Math.round(s/t·100)` is the integer nearest to `100·s/t`, rounding halves up |
| Dashboard.FirstColor | components/Dashboard.tsx:40-55 | the first table entry, in order, whose colour name the class contains |
| Dashboard.GetColor | components/Dashboard.tsx:38-57 | white for a missing or empty class; otherwise the colour of the first listed name the class contains, or white when none matches |
| Dashboard.WeatherCondition | components/Dashboard.tsx:531-538 | each condition holds iff the code is in its range (0, 1–3, 45–48, 51–67, 71–77, 80–82, ≥ 95), UNKNOWN otherwise |
| Dashboard.RemainingSeconds | components/Dashboard.tsx:338-341 | never negative while running and at most the full duration once started; `durationMinutes·60` when not active or without a start time |
| Dashboard.RemainingNonIncreasing | components/Dashboard.tsx:338-341 | the remaining time never grows as the clock advances |
| Dashboard.RemainingReachesZero | components/Dashboard.tsx:338-341 | once the whole duration has elapsed the remaining time is 0 |
| Dashboard.Mixed | components/Dashboard.tsx:499-503 | the interleaved list has `n + ceil(n/3)` items |
| Dashboard.SlotStep | components/Dashboard.tsx:500-503 | each headline takes one slot, plus one for a market line when its index is divisible by 3 |
| Dashboard.MixedLayout | components/Dashboard.tsx:499-503 | headlines keep their order and each headline with index divisible by 3 is followed by `markets[i mod 5]` |
| Dashboard.SlotIncreasing | components/Dashboard.tsx:500-503 | later headlines sit at later positions |
| Dashboard.MixedAt | components/Dashboard.tsx:500-503 | headline `i` is at its slot, followed by its market line when `i` is divisible by 3 |
| Dashboard.NewsItems | components/Dashboard.tsx:487-509 | a failed fetch shows the three fallback lines; otherwise the loop's list is the interleaving of the headlines |
| Dashboard.HeadlinesOf | components/Dashboard.tsx:487 | one tagged, upper-cased headline per story, in order |
| Dashboard.Without | components/Dashboard.tsx:855 | the filter keeps exactly the other days |
| Dashboard.ToggleDay | components/Dashboard.tsx:854-857 | the toggled day is present iff it was absent, and no other day changes |
| Dashboard.ToggleTwice | components/Dashboard.tsx:854-857 | toggling twice gives the same set of days, and the same list when the day was absent |
| Dashboard.WithoutAbsent | components/Dashboard.tsx:855 | removing an absent day changes nothing |
| Dashboard.WithoutAppend | components/Dashboard.tsx:855-856 | removing a day just appended undoes the append |
| Dashboard.PriorityValue | components/Dashboard.tsx:574-577 | priorities are 1..3 and a missing priority counts as MED (2) |
| Dashboard.OrderTodos | components/Dashboard.tsx:575-578 | sorting keeps the number of todos |
| Dashboard.TodosOrdered | components/Dashboard.tsx:572-580 | the todos are a permutation of the fetched ones, incomplete before completed, then HIGH > MED > LOW |
| Dashboard.TodoKeyLe | components/Dashboard.tsx:576-577 | the comparator's key order puts incomplete first, then higher priority |
| Dashboard.TodosStable | components/Dashboard.tsx:575-578 | todos with equal keys keep their fetched order |
| Dashboard.OrderAlarms | components/Dashboard.tsx:584 | sorting keeps the number of alarms |
| Dashboard.AlarmsOrdered | components/Dashboard.tsx:582-585 | the alarms are a permutation of the fetched ones in ascending time-string order |
| Dashboard.AddTodo | components/Dashboard.tsx:587-599 | a blank todo is not added; otherwise exactly one incomplete todo with the text and priority is added |
| DevTools.Token | components/DevTools.tsx:167-170 | `charCodeAt(0).toString(base).padStart(width, '0')` is at least `width` digits long |
| DevTools.Tokens | components/DevTools.tsx:167-170 | one token per code unit, in order |
| DevTools.TokenRoundTrip | components/DevTools.tsx:167-170 | for a code unit below 256 the token has exactly `width` digits, no space, and reads back as the same character |
| DevTools.DecodeTokensRoundTrip | components/DevTools.tsx:167-170 | the tokens of Latin-1 text read back as the text |
| DevTools.RadixRoundTrip | components/DevTools.tsx:167-170 | for Latin-1 text the space-joined tokens split back into the tokens, each exactly `width` digits, and decode to the text |
| DevTools.HexRoundTrip | components/DevTools.tsx:166-168 | HEX: every token of Latin-1 text has exactly 2 digits and the text is recoverable |
| DevTools.BinaryRoundTrip | components/DevTools.tsx:169-171 | BINARY: every token of Latin-1 text has exactly 8 bits and the text is recoverable |
| DevTools.MorseCode | components/DevTools.tsx:173-174 | a character has a code iff the table lists it, and the code is that of its first listing |
| DevTools.MorseTokens | components/DevTools.tsx:174 | one token per character, in order |
| DevTools.MorseTableShape | components/DevTools.tsx:173 | every table code is a non-empty string of `.`, `-` and `/` |
| DevTools.MorseTokenNoSpace | components/DevTools.tsx:174 | no token contains a space (a space maps to "/") |
| DevTools.MorseTokenization | components/DevTools.tsx:172-174 | MORSE output of non-empty text splits at single spaces into exactly one token per character of the upper-cased text; unmapped characters pass through |
| DevTools.B64Index | components/DevTools.tsx:164 | each character decodes to a six-bit value or to -1 |
| DevTools.B64CharIndex | components/DevTools.tsx:164 | the alphabet of section 4 of RFC 4648 is decoded back to its index, and no letter of it is the pad |
| DevTools.B64 | components/DevTools.tsx:164 | the encoding of `n` Latin-1 characters has `4·ceil(n/3)` characters |
| DevTools.Btoa | components/DevTools.tsx:164-178 | `btoa` fails exactly on text with a character above U+00FF |
| DevTools.B64RoundTrip | components/DevTools.tsx:164 | decoding the Base64 of Latin-1 text gives the text back |
| DevTools.B64Alphabet | components/DevTools.tsx:164 | the encoding uses only the Base64 alphabet and the pad |
| DevTools.CryptoOutput | components/DevTools.tsx:159-180 | empty input gives empty output in every mode; BASE64 yields ENCODING_ERROR exactly when the input is not Latin-1 |
| DevTools.CryptoOutputInvertible | components/DevTools.tsx:162-171 | for Latin-1 input the BASE64, HEX and BINARY outputs all decode back to the input |
| DevTools.KillProcess | components/DevTools.tsx:153-156 | exactly the entries with another pid remain, in their order |
| DevTools.CountPid | components/DevTools.tsx:154 | no more entries carry a pid than there are entries |
| DevTools.KillIdempotent | components/DevTools.tsx:153-156 | killing the same pid twice is the same as once |
| DevTools.Lookup | components/DevTools.tsx:221-226 | a variable is found iff it was stored |
| DevTools.Assign | components/DevTools.tsx:249-259 | the assigned variable reads back its value and no other variable changes |
| DevTools.ReplaceWordAbsent | components/DevTools.tsx:232-234 | replacing a variable name that occurs nowhere as a whole word changes nothing |
| DevTools.ReplaceWordFrom | components/DevTools.tsx:233 | the global whole-word replacement from a position; replacing a non-empty name by its own text leaves the rest of the text as it is |
| DevTools.ReplaceWord | components/DevTools.tsx:233 | replacing a non-empty name by its own text changes nothing |
| DevTools.Substitute | components/DevTools.tsx:232-234 | every variable's value replaces its name in insertion order; with no variables the expression stays |
| DevTools.SubstituteAbsent | components/DevTools.tsx:232-234 | where no variable's name stands as a whole word, substitution leaves the expression unchanged |
| DevTools.PrintOutcome | components/DevTools.tsx:210-240 | a print keeps the variables and logs exactly one output or error line; it throws only when `hasOwnProperty` is a variable, and always then outside a literal or `+` chain; an error line is the NameError of an expression that does not evaluate |
| DevTools.AssignedValue | components/DevTools.tsx:248-260 | a quoted expression stores its contents; otherwise the evaluated substituted expression, or the substituted text where evaluation fails |
| DevTools.Interpreter | components/DevTools.tsx:206-262 | every line of the interpreter logs only output and errors |
| DevTools.RunLines | components/DevTools.tsx:205-263 | a run in which no line throws ends without an exception |
| DevTools.ScriptLogs | components/DevTools.tsx:200-268 | the banner comes first; the last line is the exit line exactly when no line threw |
| DevTools.PythonLogs | components/DevTools.tsx:200-268 | the banner, then only output and error lines, then the exit line or the interpreter error |
| DevTools.HasOwn | components/DevTools.tsx:221-226 | `variables.hasOwnProperty(p)` throws when a variable named `hasOwnProperty` shadows it, otherwise tells whether `p` is stored |
| DevTools.Inner | components/DevTools.tsx:214-220 | `slice(1, -1)` drops the first and last characters |
| DevTools.PartText | components/DevTools.tsx:219-223 | a quoted part contributes its contents, a stored variable its value, any other part itself, unless the shadowed `hasOwnProperty` throws |
| DevTools.ConcatParts | components/DevTools.tsx:217-224 | the concatenation throws iff one of its parts throws |
| DevTools.StepLine | components/DevTools.tsx:206-262 | a line that does not raise logs at most one entry, a log or an error |
| DevTools.TrimmedOutcome | components/DevTools.tsx:208-262 | a trimmed line that does not raise logs at most one entry, a log or an error |
| DevTools.AssignOutcome | components/DevTools.tsx:242-261 | an assignment never raises and logs nothing |
| DevTools.InterpreterQuiet | components/DevTools.tsx:206-263 | every line step logs only logs and errors |
| DevTools.RunQuiet | components/DevTools.tsx:206-263 | the lines of a run log only logs and errors |
| DevTools.SuccessIffNoException | components/DevTools.tsx:200-268 | a run ends with exactly one success log iff no line raised, and otherwise ends with one INTERPRETER_ERROR log and no success log |
| DevTools.BlankLineSilent | components/DevTools.tsx:207-208 | blank and `#` lines change nothing and log nothing |
| DevTools.PrintLiteral | components/DevTools.tsx:210-214 | `print("lit")` logs `lit` without quotes |
| DevTools.AssignLiteral | components/DevTools.tsx:242-249 | `x = "s"` stores `s` under `x` and logs nothing |
| DevTools.StepAssign | components/DevTools.tsx:242 | a line with `=` that is not a print call is an assignment |
| DevTools.AssignParts | components/DevTools.tsx:243-245 | an assignment stores the value of the trimmed right side under the trimmed left side |
| DevTools.QuotedLiteral | components/DevTools.tsx:248-249 | a double-quoted right side stores its contents |
| DevTools.StepPrint | components/DevTools.tsx:210-211 | a print call is judged on the text between `print(` and `)` |
| DevTools.PrintLine | components/DevTools.tsx:207-211 | `print(c)` is judged on `c` |
| DevTools.ConcatLiteralsAsWritten | components/DevTools.tsx:213-214 | as written: `print("a" + "b")` passes the literal test and logs `a" + "b` |
| DevTools.LiteralPrint | components/DevTools.tsx:213-214 | content passing the literal test is logged without its quotes |
| DevTools.ConcatLiteralsJoined | components/DevTools.tsx:215-224 | corrected: `print("a" + "b")` logs `ab` |
| DevTools.ConcatOfLiterals | components/DevTools.tsx:217-223 | two quoted parts concatenate to their contents |
| DevTools.ShadowedLookupThrows | components/DevTools.tsx:226 | with a variable named `hasOwnProperty` stored, printing a bare name raises |
| DevTools.ScriptLogsOf | components/DevTools.tsx:200-268 | a run logs the banner, the lines' logs and one verdict |
| DevTools.RunLinesStep | components/DevTools.tsx:206-263 | the `forEach` runs one line, then stops on a raise or continues with the updated variables |
| DevTools.Console.constructor | components/DevTools.tsx:194-197 | the console starts empty |
| DevTools.Console.AddLog | components/DevTools.tsx:194-197 | `addLog` appends exactly one entry |
| DevTools.Console.AddLogs | components/DevTools.tsx:194-197 | the entries are appended in order |
| DevTools.Console.ExecutePython | components/DevTools.tsx:200-268 | `executePython` appends exactly `PythonLogs` of the script, run with the corrected literal test |
| DevTools.Console.RunScript | components/DevTools.tsx:200-268 | any line step: the banner, the lines' logs and the verdict are appended |
| DevTools.Console.RunLinesOf | components/DevTools.tsx:206-263 | the loop over lines appends each line's logs and reports the first raise |
| MemoryVault.NonEmpty | components/MemoryVault.tsx:270 | `filter(t => t.length > 0)` keeps exactly the non-empty pieces |
| MemoryVault.NonEmptyKeepsAll | components/MemoryVault.tsx:270 | a list without empty pieces passes the filter unchanged |
| MemoryVault.ParseTagsIff | components/MemoryVault.tsx:270 | a tag is parsed iff it is non-empty and some comma-separated piece trims to it |
| MemoryVault.ParseTagsNormal | components/MemoryVault.tsx:270 | parsed tags are non-empty, trimmed and comma-free |
| MemoryVault.JoinSpaced | components/MemoryVault.tsx:336 | joining with ", " is joining at "," the tags preceded by a space |
| MemoryVault.TrimJoinPieces | components/MemoryVault.tsx:336-347 | trimming the pieces of the joined text gives the tags back |
| MemoryVault.EditTagsRoundTrip | components/MemoryVault.tsx:336-347 | round trip: parsing `tags.join(', ')` gives back any list of trimmed, non-empty, comma-free tags |
| MemoryVault.SomeTagContainsIff | components/MemoryVault.tsx:361 | `m.tags.some(...)` holds iff some lower-cased tag contains the term |
| MemoryVault.Filtered | components/MemoryVault.tsx:359-362 | the filter keeps exactly the matching memories, in order |
| MemoryVault.MatchesIff | components/MemoryVault.tsx:359-362 | a memory matches iff its lower-cased content or some lower-cased tag contains the lower-cased term |
| MemoryVault.EmptyFilterKeepsAll | components/MemoryVault.tsx:359-362 | an empty term keeps every memory |
| MemoryVault.FilterCaseInsensitive | components/MemoryVault.tsx:360 | the filter ignores the case of the term |
| MemoryVault.NewestMemoriesOrdered | components/MemoryVault.tsx:70-73 | memories are a permutation of the stored ones, newest first |
| MemoryVault.NewestTracksOrdered | components/MemoryVault.tsx:75-78 | tracks are a permutation of the stored ones, newest first |
| MemoryVault.ExtensionDot | components/MemoryVault.tsx:294 | finds the dot where `/\.[^/.]+$/` matches, or reports that there is none |
| MemoryVault.StripExtension | components/MemoryVault.tsx:294 | a final `.ext` (non-empty, with no dot or slash) is removed; a name without one is unchanged |
| MemoryVault.DefaultTrackName | components/MemoryVault.tsx:293-295 | a typed name is kept; an empty one becomes the file name without its last extension |
| MemoryVault.StripExtensionExamples | components/MemoryVault.tsx:294 | "song.mp3" gives "song", "archive.tar.gz" gives "archive.tar", and "dir.v2/track" is unchanged |
| MemoryVault.SharedTags | components/MemoryVault.tsx:135 | the shared tags are exactly those in both lists |
| MemoryVault.LinkedIff | components/MemoryVault.tsx:135-136 | two memories are linked iff they share a tag, and the relation is symmetric |
| MemoryVault.NewMemory | components/MemoryVault.tsx:263-278 | blank content saves nothing; otherwise the memory has the content, the type, the parsed tags and the timestamp as id and date |
| MemoryVault.Vault.constructor | components/MemoryVault.tsx:24-41 | the vault starts locked with empty fields and the stored password |
| MemoryVault.Vault.CheckSecurity | components/MemoryVault.tsx:57-68 | locked and protected iff a non-empty password is stored; with none the vault starts unlocked; every other field keeps its value |
| MemoryVault.Vault.Unlock | components/MemoryVault.tsx:214-229 | the right password unlocks and clears the error; a wrong one sets the error; both clear the input; every other field keeps its value |
| MemoryVault.Vault.SetPassword | components/MemoryVault.tsx:231-239 | a blank password changes nothing; otherwise it is stored, the form closes and the vault is open; every other field keeps its value |
| MemoryVault.Vault.RemovePassword | components/MemoryVault.tsx:241-247 | a confirmed removal clears the password; an unconfirmed one changes nothing; every other field keeps its value |
| MemoryVault.Vault.Lock | components/MemoryVault.tsx:249-252 | the vault is locked; every other field keeps its value |
| MemoryVault.Vault.Load | components/MemoryVault.tsx:70-78 | memories and tracks are shown newest first; every other field keeps its value |
| MemoryVault.Vault.AddMemory | components/MemoryVault.tsx:263-284 | blank content saves nothing and keeps the form; otherwise the new memory is saved and the form is reset; every other field keeps its value |
| MemoryVault.Vault.ResetAddForm | components/MemoryVault.tsx:280-282 | the add form is cleared and closed; every other field keeps its value |
| MemoryVault.Vault.StartEditing | components/MemoryVault.tsx:333-338 | editing shows the content and the tags joined by ", "; every other field keeps its value |
| MemoryVault.Vault.SaveEdit | components/MemoryVault.tsx:346-357 | the saved memory keeps its other fields and takes the edited content and parsed tags; every other field keeps its value |
| MemoryVault.Vault.SelectMusicFile | components/MemoryVault.tsx:288-297 | choosing a file records it and fills an empty name from the file name; no file changes nothing; every other field keeps its value |
| MemoryVault.Vault.UploadMusic | components/MemoryVault.tsx:299-322 | nothing is saved without both a file and a name; otherwise the track is saved and the form cleared; every other field keeps its value |
| MemoryVault.EditUnchanged | components/MemoryVault.tsx:333-357 | opening and saving an edit without changes saves the memory as it was |
| SecurityGate.EmptyPhraseGrantsAll | components/SecurityGate.tsx:176 | an empty voice phrase matches every input |
| SecurityGate.MatchesNormalised | components/SecurityGate.tsx:172 | surrounding whitespace and letter case of the input do not change the verdict |
| SecurityGate.PinGrants | components/SecurityGate.tsx:177 | typing the (digit) PIN grants access |
| SecurityGate.IdentityGrants | components/SecurityGate.tsx:179 | "I am <name>" grants access |
| SecurityGate.Verdict | components/SecurityGate.tsx:171-196 | ACCESS_GRANTED iff the input matches phrase, PIN, name or "i am <name>", and then the MASTER callback is scheduled; otherwise ACCESS_DENIED with the return to IDLE scheduled |
| SecurityGate.ScanSteps | components/SecurityGate.tsx:160-163 | the interval shows 5, 10, 15, … |
| SecurityGate.ScanReachesHundredOnce | components/SecurityGate.tsx:160-168 | progress rises from 0 in steps of 5 and first reaches 100 at the last tick |
| SecurityGate.EndStatus | components/SecurityGate.tsx:140-142 | corrected `onend`: a gate still listening returns to IDLE, any other status is kept |
| SecurityGate.StaleEndKeepsListening | components/SecurityGate.tsx:113-146 | as written: the handler tests the status captured at the start (IDLE), so a gate left LISTENING stays LISTENING |
| SecurityGate.Gate.constructor | components/SecurityGate.tsx:12-16 | the gate starts IDLE with the TEXT method, an empty passcode and nothing scheduled |
| SecurityGate.Gate.TypePasscode | components/SecurityGate.tsx:12 | typing sets the passcode; every other field keeps its value |
| SecurityGate.Gate.ChooseText | components/SecurityGate.tsx:16 | choosing sets the TEXT method; every other field keeps its value |
| SecurityGate.Gate.TextLogin | components/SecurityGate.tsx:148-152 | a blank trimmed passcode starts nothing; any other passcode is validated exactly once; every other field keeps its value |
| SecurityGate.Gate.RunScan | components/SecurityGate.tsx:155-168 | the scan loop shows 0, 5, …, 100 and ends at 100 |
| SecurityGate.Gate.ValidateCredentials | components/SecurityGate.tsx:154-169 | the scan runs to 100 and `finalizeLogin` runs exactly once, on the input, and sets the verdict; every other field keeps its value |
| SecurityGate.Gate.FinalizeLogin | components/SecurityGate.tsx:171-196 | the verdict is set and its callback scheduled; a denial clears the passcode; every other field keeps its value |
| SecurityGate.Gate.FireTimer | components/SecurityGate.tsx:184-194 | a fired grant calls `onAuthenticate('MASTER')`; a fired denial returns to IDLE with the TEXT method; every other field keeps its value |
| SecurityGate.Gate.StartVoiceAuth | components/SecurityGate.tsx:113-146 | without support nothing changes; otherwise the gate listens by voice and the session captures the current status; every other field keeps its value |
| SecurityGate.Gate.VoiceResult | components/SecurityGate.tsx:128-132 | the transcript becomes the passcode and is validated; every other field keeps its value |
| SecurityGate.Gate.VoiceError | components/SecurityGate.tsx:134-138 | an error returns to IDLE with the TEXT method; every other field keeps its value |
| SecurityGate.Gate.VoiceEnd | components/SecurityGate.tsx:140-142 | as written: the session closes and the status is reset only when the captured status was LISTENING; every other field keeps its value |
| SecurityGate.Gate.VoiceEndChecked | components/SecurityGate.tsx:140-142 | corrected: the session closes and a gate still listening returns to IDLE; every other field keeps its value |
| SecurityGate.NoResultScenario | components/SecurityGate.tsx:113-146 | as written: a voice scan from IDLE that ends without a result leaves the gate LISTENING |
| SecurityGate.NoResultScenarioChecked | components/SecurityGate.tsx:113-146 | corrected: the same scan leaves the gate IDLE |
| SetupWizard.KeepDigits | components/SetupWizard.tsx:111 | `replace(/\D/g, '')` keeps exactly the digits, in order |
| SetupWizard.KeepDigitsOfDigits | components/SetupWizard.tsx:111 | digits only are left unchanged |
| SetupWizard.KeepDigitsCount | components/SetupWizard.tsx:111 | every digit is kept as often as it occurs |
| SetupWizard.PinField | components/SetupWizard.tsx:110-111 | the PIN field holds at most 6 characters, all digits |
| SetupWizard.FinalProfile | components/SetupWizard.tsx:37-44 | registered; name or "Master"; PIN or "0000"; the phrase upper-cased; the licence key unchanged |
| SetupWizard.FinalPinDigits | components/SetupWizard.tsx:40 | the final PIN is all digits |
| SetupWizard.SyncSteps | components/SetupWizard.tsx:32-34 | the interval shows 2, 4, 6, … |
| SetupWizard.SyncReachesHundredOnce | components/SetupWizard.tsx:31-46 | progress rises by 2 per tick and first reaches 100 at the 50th tick |
| SetupWizard.Wizard.constructor | components/SetupWizard.tsx:13-20 | step 1, empty name and PIN, phrase "PROTOCOL ALPHA" |
| SetupWizard.Wizard.TypeName | components/SetupWizard.tsx:90 | typing sets the name; every other field keeps its value |
| SetupWizard.Wizard.TypePin | components/SetupWizard.tsx:111 | the PIN field takes the filtered digits; every other field keeps its value |
| SetupWizard.Wizard.Next | components/SetupWizard.tsx:22-25 | Next advances by exactly one, except with an empty name on step 1 or a PIN shorter than 4 on step 2; every other field keeps its value |
| SetupWizard.Wizard.StartVoiceRecord | components/SetupWizard.tsx:50-55 | recording starts listening only when supported; every other field keeps its value |
| SetupWizard.Wizard.VoiceRecordResult | components/SetupWizard.tsx:58-60 | the recorded phrase is stored upper-cased and listening stops; every other field keeps its value |
| SetupWizard.Wizard.Finish | components/SetupWizard.tsx:27-48 | step 4, progress 2…100, and `onComplete` is scheduled exactly once with the final profile; every other field keeps its value |
| SetupWizard.Wizard.FireComplete | components/SetupWizard.tsx:45 | the scheduled `onComplete` runs once; every other field keeps its value |
| SetupWizard.HappyPath | components/SetupWizard.tsx:22-48 | name, four-digit PIN and recording lead to exactly one completed profile with that name, PIN and key |
| CryptoService.Substring | services/cryptoService.ts:21 | `substring(a, b)` never yields more than `b - a` characters |
| CryptoService.Checksum | services/cryptoService.ts:27-30 | the checksum is exactly four upper-case hexadecimal digits (the first four of the digest, upper-cased) |
| CryptoService.RandomId | services/cryptoService.ts:21 | the random identifier has at most eight characters |
| CryptoService.KeyParts | services/cryptoService.ts:32 | a key built from a dash-free id splits at its dashes into MARCO, PRO, the id and its checksum |
| CryptoService.GeneratedKeyFormat | services/cryptoService.ts:19-33 | a generated key is `MARCO-PRO-<id>-<checksum>` with an upper-case hex id of at most eight digits and four upper-case hex checksum digits |
| CryptoService.KeyIsClean | services/cryptoService.ts:32-37 | trimming and upper-casing leave a generated key unchanged |
| CryptoService.GeneratedKeyValidates | services/cryptoService.ts:19-56 | round trip: every key `generateLicenseKey` returns is accepted by `validateLicenseKey` |
| CryptoService.KeyForValid | services/cryptoService.ts:42-56 | the key of any dash-free upper-case id is valid |
| CryptoService.MasterKeyValid | services/cryptoService.ts:37-40 | the master key is valid whatever its case and surrounding whitespace |
| CryptoService.ValidationNormalises | services/cryptoService.ts:37 | surrounding whitespace and letter case do not change the verdict |
| CryptoService.SameCleanKey | services/cryptoService.ts:37 | two keys with the same trimmed upper-case form get the same verdict |
| CryptoService.WrongDashCountRejected | services/cryptoService.ts:42-45 | a non-master key without exactly four dash-separated parts is rejected |
| CryptoService.ValidIff | services/cryptoService.ts:36-57 | a key is valid iff its clean form is the master key or the key of some dash-free id |
| CryptoService.AcceptedPartsKey | services/cryptoService.ts:45-56 | four parts accepted by the checks rebuild exactly the key of their third part |
| LearningService.KeywordsIn | services/learningService.ts:23 | the filter keeps exactly the keywords the text contains, in list order |
| LearningService.ExtractTopics | services/learningService.ts:21-24 | the topics are exactly the keywords contained in the lower-cased text, as a subsequence of the keyword list |
| LearningService.Bump | services/learningService.ts:42 | `record[k] = (record[k] \|\| 0) + 1` counts `k` once more, changes no other count, and adds a new key last |
| LearningService.BumpUnique | services/learningService.ts:42 | a counter record keeps one entry per key after a bump |
| LearningService.BumpAllCount | services/learningService.ts:53-56 | each listed value is counted once per occurrence |
| LearningService.BumpAllUnique | services/learningService.ts:53-56 | counting a list keeps one entry per key |
| LearningService.UpdateProfile | services/learningService.ts:26-61 | as a new value: `lastActive` is stamped; INTERACTION adds exactly one interaction; COMMAND/THEME with a value count it once; TOPIC counts its value and every listed value once per occurrence; every other counter is unchanged |
| LearningService.BumpEach | services/learningService.ts:54-56 | the `forEach` loop adds each value's number of occurrences to its count |
| LearningService.TopicsAfterCounts | services/learningService.ts:49-58 | after a TOPIC update each topic's count grows by exactly the number of times the action names it |
| LearningService.TopEntries | services/learningService.ts:64-66 | the slice has `min(limit, entries)` entries |
| LearningService.TopInterests | services/learningService.ts:63-68 | at most `limit` interests, never more than there are topics |
| LearningService.TopEntriesRanked | services/learningService.ts:64-66 | the kept entries come from the profile, in descending count order, and no entry left out outranks a kept one |
| LearningService.TopInterestsAreTopics | services/learningService.ts:63-68 | every top interest is a topic key of the profile |
| GeminiService.ProfileContext | services/geminiService.ts:16-30 | the profile context is empty iff the profile has fewer than five interactions |
| GeminiService.PreferredThemeIsMaximal | services/geminiService.ts:18-19 | the preferred theme is "None" for an empty theme record, else a key with a maximal count |
| GeminiService.MemoryLines | services/geminiService.ts:72-74 | one line per memory, in order |
| GeminiService.Capped | services/geminiService.ts:70 | the context holds `min(30, memories)` memories |
| GeminiService.MemorySection | services/geminiService.ts:61-84 | the memory section is empty iff there are no memories |
| GeminiService.QuotedNames | services/geminiService.ts:88 | one quoted name per track |
| GeminiService.MusicSection | services/geminiService.ts:86-94 | the music section is empty iff there are no tracks |
| GeminiService.GenerateMemoryContext | services/geminiService.ts:46-105 | any role but MASTER gets the LOCKED section and the store is not consulted |
| GeminiService.LockedIgnoresStore | services/geminiService.ts:48-55 | for a non-master role the context does not depend on the store at all |
| GeminiService.ContextMemoriesRanked | services/geminiService.ts:62-70 | the included memories are at most 30, drawn from the store, ordered directive > fact > summary > note, no left-out memory outranks an included one, and the sort is stable |
| GeminiService.MasterContextShape | services/geminiService.ts:57-104 | a failed store read gives the empty context; the music and memory sections appear iff tracks or memories exist |
| GeminiService.ReplaceAllIsSplitJoin | services/geminiService.ts:128-131 | a global replace is split-then-join, and no piece still holds the placeholder |
| GeminiService.ReplaceAllAbsent | services/geminiService.ts:128-131 | replacing a placeholder that does not occur changes nothing |
| GeminiService.SplitNoOccurrence | services/geminiService.ts:128-131 | a text without the separator splits into itself |
| GeminiService.PersonalityInstruction | services/geminiService.ts:124 | a known personality gets its prompt; an unknown one falls back to LOGICAL |
| GeminiService.WordPrefix | services/geminiService.ts:142 | the `\w+` run lies within the text |
| GeminiService.StripDataUrl | services/geminiService.ts:142 | stripping the data-URL header leaves a suffix of the image text |
| GeminiService.BuildParts | services/geminiService.ts:139-152 | the parts are the stripped image followed by the visual prompt when an image is attached, else the single history prompt; the last part is always text |
| GeminiService.GenerateMarcoResponse | services/geminiService.ts:107-172 | with no client the fixed error string is returned and nothing is sent; otherwise exactly one request with the assembled system instruction and parts is sent and its reply text returned |
| GeminiService.ImageDropsHistory | services/geminiService.ts:139-152 | with an image the history has no effect on the parts; without one there is a single text part holding the history and ending with the prompt |
| GeminiService.ReplyNeverEmpty | services/geminiService.ts:167-170 | the reply is never empty, and a thrown error yields the fixed failure string |

## Left out

- Canvas, animation and audio are left out. This covers the hologram, particles, the dashboard's canvas widgets, the vault's neural-web physics, Web Audio, the microphone visualiser (the model only zeroes `micVolume`), voice calibration and the music player. They are floating-point geometry and foreign audio APIs.
- Persistence (IndexedDB and `localStorage`) is not modelled as storage. Reads are parameters. Writes are returned as values or not modelled at all, e.g. `saveAlarm`, `saveCustomCommand` and `saveNoFapData`.
- Network and browser calls are not modelled: the language-model request (a function parameter in `GeminiService`), the news and weather fetches, geolocation, `mailto` and the service worker. `window.open` is modelled only as the list of addresses passed to it.
- The TODO, MEMORY, NOTE and EMAIL commands of `handleAICommand` are not modelled. They only write to storage or call the browser, and leave the modelled state unchanged. MUSIC is modelled (`App.MusicCommand`): the tracks `getMusicTracks` returns and the object URL made for the chosen blob are parameters.
- Randomness is left out: the random avatar loop, pitch and rate jitter, and simulated process statistics. The greeting's hour and prompt index are parameters of `VoiceLoop.GreetingFire`.
- Locale and date formatting (`toLocaleTimeString`, `getDay`, `new Date(...)`) are not modelled. The formatted minute, the weekday, the day boundaries and the timestamps are inputs.
- `cleanTextForSpeech` is the uninterpreted parameter `clean` of `VoiceLoop`. Its regular-expression rewriting is left out.
- Only ASCII is modelled for strings: case mapping and whitespace act on ASCII alone, and characters stand for UTF-16 code units.
- `parseInt` is modelled as optional whitespace, an optional sign and the longest decimal prefix. Radix prefixes such as `0x` are not modelled.
- Enum lookups by key (`AppView[payload]`, `ThemeName[...]`) see only the enum's own keys. Inherited object properties such as `constructor` are not modelled.
- React batching is not modelled: each `setState` takes effect at once. The exception is where the source reads a captured value, which the model keeps: a recogniser's `onend` sees the `isLoading`/`isSpeaking` of the render that created it, and the gate's `onend` sees the status captured at the scan's start.
- The live-mode effect is not triggered automatically. The environment calls `VoiceLoop.LiveModeEffect` whenever one of its dependencies changes. `VoiceLoop.RestartFire` requires the dependencies to be unchanged, because React clears the timer otherwise.
- Callbacks of cancelled utterances are not modelled. `speechSynthesis.cancel()` may fire `onend`/`onerror` on the utterance it cancels; `VoiceLoop.ChunkEnd` and `VoiceLoop.ChunkError` are events of the current utterance only.
- A pending 600 ms count pause from an earlier count is dropped when a new sequence starts (`ChatVoice.Launch`). In the source, that timer still fires and can continue the old count.
- `recognition.start()` throwing (the source catches and ignores it) is not modelled. A start always succeeds.
- The boot animation (log lines, progress bar, the `isWakingUp` flag) and all sound effects are left out.
- `ChatVoice.VoiceLoop.Speak`: plays the corrected chunker `ChatPlayback.SpokenChunks`, not the as-written `ChatPlayback.Chunks` (see Findings).
- `ChatCommands.ProcessResponse`: removes each tag where the scan found it. The source's `replace(match[0], '')` removes the first occurrence of the same text. The two differ only when an identical copy of the tag's text appears earlier inside text that is not itself a tag.
- `ChatMisc.FormatTimeRoundTrip`: stated for non-negative seconds only, because the countdown never shows a negative time. `ChatMisc.JsRem` models the remainder for negative input.
- `DevTools.MorseTokenization`: MORSE output is shown to split into one token per character, but it is not proved decodable back to the text.
- `DevTools`: the JavaScript runner (`AsyncFunction`) is left out. The arithmetic `eval` of `executePython` is the parameter `eval`.
- `GeminiService.ProfileContext`: the `Level` figure, `totalInteractions / 10`, appears in the context text but has no lemma of its own.
- `MTracker`: the calendar's day boundaries are inputs (`DaySlot`), not computed from a calendar.
- `MTracker.CountMonth`, `MTracker.HasRelapseLoop`, `MTracker.CleanCount`: test a relapse against the corrected half-open day (`MTracker.InDay`: from the day's start up to the next day's start), not the source's inclusive `dayStart <= relapse <= dayEnd` with `dayEnd` at 23:59:59.000 (`MTracker.InDayAsWritten`). A relapse after 23:59:59.000 makes that day not clean here, where the source counts it clean (see Findings).
- `DevTools.Console.ExecutePython`, `DevTools.PythonLogs`, `DevTools.Interpreter`: run the corrected literal test, so `print("a" + "b")` logs `ab` where the source logs `a" + "b`. The as-written line is `DevTools.StepLine` with `corrected` false (see Findings).
- `DevTools.Substitute`: replaces each name as literal text between word boundaries, not through `new RegExp('\\b' + name + '\\b', 'g')`. Not modelled: a name with regular-expression metacharacters matching other text (`a+b` matches `aab`); an invalid pattern such as `x[` throwing, which the print branch reports as the NameError and the assignment branch answers by storing the partly substituted text; `$` patterns in a value being expanded; and `Object.keys` visiting integer-like names first, in ascending order. The model visits the names in insertion order.
- `DevTools.ReplaceWordAbsent`: holds of the literal whole-word replacement. In the source, a name with regular-expression metacharacters can rewrite text where the name does not occur (see `DevTools.Substitute`).
- `GeminiService.ReplaceAll`, `GeminiService.ReplaceAllIsSplitJoin`, `GeminiService.GenerateMarcoResponse`: `ReplaceAll` splices the replacement in literally. A JavaScript string replacement expands `$$`, `$&`, `` $` `` and `$'` in it, so a master name containing `$` reaches the system instruction changed (`A$$B` becomes `A$B`). The other two describe the source only for names without `$`.
- `SecurityGate.Gate.RunScan`, `SecurityGate.Gate.ValidateCredentials`, `SecurityGate.Gate.VoiceResult`: run the 100 ms scan interval to its end in one step. No event can arrive between two ticks, so a voice session's `onend` or a second recognition result during a scan (components/SecurityGate.tsx:113-142) is not modelled.
- `LearningService.UpdateProfile`: returns a new profile value. The source's `{ ...currentProfile }` is a shallow copy, so its increments land in the `topCommands`, `preferredThemes` and `topics` objects it shares with the previous profile, changing that profile's counters too (services/learningService.ts:34, called from the `setState` updater at App.tsx:260). This aliasing is not captured.
- The license gate, the admin key generator and the install prompt are not part of this model. They only call functions that are modelled (`CryptoService.ValidateLicenseKey`) or compare a fixed password.

## Findings

| source | as written | input that shows it | evidently intended | confidence | as-written member | corrected member |
|---|---|---|---|---|---|---|
| components/ChatInterface.tsx:449 | `match(/[^.!?]+[.!?]+/g)` keeps only runs ending in a terminator, so text after the last `.`, `!` or `?` is never spoken | `"Hello. World"` is spoken as `"Hello."` only | speak the whole reply, with unterminated trailing text as a last chunk | not executed; high | ChatPlayback.SentenceThenText | ChatPlayback.SpokenChunksKeepText |
| components/ChatInterface.tsx:797-810 | `onend` clears `recognitionRef` whatever recogniser ended, so the late end of a recogniser stopped by the mic button drops the handle of the one just started | in wake-word standby, press the mic button, then let the old recogniser's `onend` arrive: two recognisers are live and `stopRecognition` reaches neither | an end clears the handle only when it belongs to the ending recogniser, keeping at most one live | not executed; medium | ChatVoice.StaleEndLeavesTwoLive | ChatVoice.StaleEndChecked |
| App.tsx:206-229 | a one-shot alarm is deactivated when it rings, and the snooze guard only re-arms active alarms | a one-shot alarm at `07:00` rings and the user presses snooze: it never rings again | snoozing re-arms the alarm that rang, five minutes later | not executed; high | App.OneShotSnoozeLost | App.SnoozeRungRearms |
| components/MTracker.tsx:239-242 | a day ends at `23:59:59.000`, so a relapse in the last second of a day lies on no day | a relapse at `23:59:59.500` leaves that day counted as clean | days are half-open intervals, so every moment of the month lies in exactly one day | not executed; high | MTracker.LastSecondRelapseLost | MTracker.DaysPartitionMonth |
| components/DevTools.tsx:213-214 | the string-literal test runs before the concatenation branch, and `"a" + "b"` starts and ends with a quote | `print("a" + "b")` logs `a" + "b` | concatenate the parts and log `ab` | not executed; high | DevTools.ConcatLiteralsAsWritten | DevTools.ConcatLiteralsJoined |
| components/SecurityGate.tsx:140-142 | `onend` tests the `status` captured when the scan began (IDLE), so the reset never happens | start a voice scan from IDLE and let it end without a result: the gate stays LISTENING | reset a gate still LISTENING to IDLE when the scan ends without a result | not executed; high | SecurityGate.NoResultScenario | SecurityGate.NoResultScenarioChecked |
