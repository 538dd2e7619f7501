/** The voice control loop of ChatInterface.tsx: one speech-recognition handle
    (`recognitionRef`) with the recognisers the browser still runs, the
    conversation/standby capture modes, the silence timer, the live-mode effect
    that restarts capture, and the playback sequencer of `speak` and
    `executeVoiceCount`.

    Device callbacks (`onstart`, `onresult`, `onerror`, `onend`, an utterance's
    `onend`/`onerror`) and timers are events: each is a method the environment
    calls.  A recogniser's closures keep what they captured when it was
    created: its mode and the `isLoading`/`isSpeaking` of that render. */
module ChatVoice {

  import opened Strings
  import ChatCommands
  import ChatPlayback

  /** `isLoading` and `isSpeaking` as one render saw them. */
  datatype Snapshot = Snapshot(isLoading: bool, isSpeaking: bool)

  /** A recogniser: conversation mode (`startRecognition(true)`) or wake-word
      standby, and the render its closures belong to. */
  datatype Session = Session(conversation: bool, seen: Snapshot)

  // ---------------------------------------------------------------------------
  // Capture: the handle and the recognisers that run

  /** `handle` is `recognitionRef.current`; `running` are the recognisers the
      browser has not ended yet; `stopping` those told to `stop()`. */
  datatype Capture = Capture(handle: Option<nat>, running: map<nat, Session>, stopping: set<nat>, nextId: nat)

  predicate CaptureValid(c: Capture) {
    && (forall id :: id in c.running ==> id < c.nextId)
    && c.stopping <= c.running.Keys
    && (c.handle.Some? ==> c.handle.value in c.running)
  }

  /** Recognisers that run and have not been told to stop. */
  function Live(c: Capture): set<nat> {
    set id | id in c.running && id !in c.stopping
  }

  /** Every live recogniser is the one the handle holds, so `stopRecognition`
      reaches it. */
  predicate OneLive(c: Capture) {
    forall id :: id in c.running && id !in c.stopping ==> c.handle == Some(id)
  }

  /** At most one recogniser is live, and none when there is no handle. */
  lemma {:induction false} OneLiveAtMostOne(c: Capture)
    requires OneLive(c)
    ensures |Live(c)| <= 1
    ensures c.handle.None? ==> Live(c) == {}
  {
    if c.handle.Some? && c.handle.value in Live(c) {
      assert Live(c) == {c.handle.value};
    } else {
      assert Live(c) == {};
    }
  }

  /** `startRecognition`: with a handle already held nothing happens; otherwise
      a new recogniser starts and the handle holds it. */
  function Started(c: Capture, s: Session): (r: Capture)
    ensures c.handle.Some? ==> r == c
    ensures c.handle.None? ==> r.handle == Some(c.nextId) && r.running == c.running[c.nextId := s]
    ensures r.stopping == c.stopping
    ensures CaptureValid(c) ==> CaptureValid(r)
  {
    if c.handle.Some? then c
    else Capture(Some(c.nextId), c.running[c.nextId := s], c.stopping, c.nextId + 1)
  }

  /** Starting keeps the live recognisers within reach; from no handle the new
      recogniser is the only live one. */
  lemma {:induction false} StartedOneLive(c: Capture, s: Session)
    requires CaptureValid(c) && OneLive(c)
    ensures OneLive(Started(c, s))
    ensures c.handle.None? ==> Live(Started(c, s)) == {c.nextId}
  {
    var r := Started(c, s);
    if c.handle.None? {
      assert forall id :: id in r.running && id !in r.stopping ==> id == c.nextId;
      assert c.nextId !in c.stopping;
      assert Live(r) == {c.nextId};
    }
  }

  /** The handle's recogniser is told to stop and the handle is cleared. */
  function Stopped(c: Capture): (r: Capture)
    ensures r.handle.None? && r.running == c.running && r.nextId == c.nextId
    ensures c.handle.Some? ==> Live(r) == Live(c) - {c.handle.value}
    ensures c.handle.None? ==> r == c
    ensures CaptureValid(c) ==> CaptureValid(r)
  {
    if c.handle.Some? then c.(handle := None, stopping := c.stopping + {c.handle.value}) else c
  }

  /** After stopping, no recogniser is live any more. */
  lemma {:induction false} StoppedNoneLive(c: Capture)
    requires OneLive(c)
    ensures Live(Stopped(c)) == {} && OneLive(Stopped(c))
  {
    OneLiveAtMostOne(c);
    if c.handle.Some? {
      assert Live(c) <= {c.handle.value};
    }
  }

  /** A recogniser's own `recognition.stop()`: it is told to stop whether or not
      the handle holds it. */
  function Told(c: Capture, id: nat): (r: Capture)
    ensures r.handle == c.handle && r.running == c.running && r.nextId == c.nextId
    ensures Live(r) == Live(c) - {id}
    ensures CaptureValid(c) ==> CaptureValid(r)
    ensures OneLive(c) ==> OneLive(r)
  {
    if id in c.running then c.(stopping := c.stopping + {id}) else c
  }

  /** `onend` as written: the recogniser is gone and the handle is cleared,
      whichever recogniser it held. */
  function Ended(c: Capture, id: nat): (r: Capture)
    ensures r.handle.None? && r.running == c.running - {id} && r.nextId == c.nextId
    ensures Live(r) == Live(c) - {id}
    ensures CaptureValid(c) ==> CaptureValid(r)
  {
    Capture(None, c.running - {id}, c.stopping - {id}, c.nextId)
  }

  /** The end of an old recogniser while the handle holds a newer live one
      leaves that one running with nothing holding it. */
  lemma {:induction false} EndedStrandsLive(c: Capture, id: nat)
    requires c.handle.Some? && c.handle.value != id && c.handle.value in Live(c)
    ensures c.handle.value in Live(Ended(c, id))
    ensures !OneLive(Ended(c, id))
  {
    var h := c.handle.value;
    assert h in Ended(c, id).running && h !in Ended(c, id).stopping;
  }

  /** `onend` acting only when the handle holds the recogniser that ended. */
  function EndedChecked(c: Capture, id: nat): (r: Capture)
    ensures r.running == c.running - {id} && r.nextId == c.nextId
    ensures Live(r) == Live(c) - {id}
    ensures c.handle == Some(id) ==> r.handle.None?
    ensures c.handle != Some(id) ==> r.handle == c.handle
    ensures CaptureValid(c) ==> CaptureValid(r)
    ensures OneLive(c) ==> OneLive(r)
  {
    if c.handle == Some(id) then Ended(c, id)
    else Capture(c.handle, c.running - {id}, c.stopping - {id}, c.nextId)
  }

  // ---------------------------------------------------------------------------
  // Playback: the sequencer of `speak` and `executeVoiceCount`

  /** `chunks` of the current sequence, `index` the next one (`chunkIndex`, or
      `current - 1` when counting), `playing` while an utterance of it is in the
      synthesiser, `pause` while a count waits its 600 ms, `failed` after an
      utterance error; `utterances` is everything handed to the synthesiser,
      the current sequence from `start` on. */
  datatype Playback = Playback(
    isSpeaking: bool, chunks: seq<string>, index: nat, playing: bool, pause: bool, failed: bool,
    counting: bool, countSeen: Snapshot, start: nat, utterances: seq<string>)

  /** Chunks of the current sequence handed to the synthesiser. */
  function Handed(p: Playback): nat {
    p.index + if p.playing || p.failed then 1 else 0
  }

  predicate PlayValid(p: Playback) {
    && p.start <= |p.utterances|
    && Handed(p) <= |p.chunks|
    && p.utterances[p.start..] == p.chunks[..Handed(p)]
    && (p.isSpeaking <==> p.playing || p.pause)
    && !(p.playing && p.pause)
    && (p.pause ==> p.counting)
    && (p.failed ==> !p.isSpeaking)
    && (!p.isSpeaking && !p.failed ==> p.index == |p.chunks|)
  }

  function Silent(): (r: Playback)
    ensures PlayValid(r) && !r.isSpeaking
  {
    Playback(false, [], 0, false, false, false, false, Snapshot(false, false), 0, [])
  }

  /** `speakNextChunk` / `speakNext`: past the last chunk speaking ends,
      otherwise the next chunk goes to the synthesiser. */
  function Next(p: Playback): (r: Playback)
    requires !p.playing && !p.pause && !p.failed && p.start <= |p.utterances|
    requires p.index <= |p.chunks| && p.utterances[p.start..] == p.chunks[..p.index]
    ensures PlayValid(r)
    ensures r.chunks == p.chunks && r.index == p.index && r.start == p.start
    ensures r.counting == p.counting && r.countSeen == p.countSeen && !r.failed && !r.pause
    ensures p.index == |p.chunks| ==> !r.isSpeaking && r.utterances == p.utterances
    ensures p.index < |p.chunks| ==> r.playing && r.utterances == p.utterances + [p.chunks[p.index]]
  {
    if p.index == |p.chunks| then p.(isSpeaking := false)
    else
      var r := p.(utterances := p.utterances + [p.chunks[p.index]], playing := true, isSpeaking := true);
      assert r.utterances[r.start..] == p.utterances[p.start..] + [p.chunks[p.index]];
      assert p.chunks[..p.index + 1] == p.chunks[..p.index] + [p.chunks[p.index]];
      r
  }

  /** A new sequence: the synthesiser is cancelled, the sequence starts at its
      first chunk. */
  function Launch(p: Playback, chunks: seq<string>, counting: bool, seen: Snapshot): (r: Playback)
    ensures PlayValid(r)
    ensures r.chunks == chunks && r.index == 0 && r.start == |p.utterances| && r.counting == counting
    ensures r.countSeen == seen && !r.failed && !r.pause
    ensures chunks != [] ==> r.playing && r.utterances == p.utterances + [chunks[0]]
    ensures chunks == [] ==> !r.isSpeaking && r.utterances == p.utterances
  {
    Next(Playback(true, chunks, 0, false, false, false, counting, seen, |p.utterances|, p.utterances))
  }

  /** An utterance ends: the next chunk plays, or for a count the pause starts. */
  function ChunkEnded(p: Playback): (r: Playback)
    requires PlayValid(p) && p.playing
    ensures PlayValid(r)
    ensures r.chunks == p.chunks && r.index == p.index + 1 && r.start == p.start && r.counting == p.counting
    ensures p.counting ==> r.pause && r.utterances == p.utterances
    ensures !p.counting && p.index + 1 == |p.chunks| ==> !r.isSpeaking && r.utterances == p.utterances
    ensures !p.counting && p.index + 1 < |p.chunks| ==> r.playing && r.utterances == p.utterances + [p.chunks[p.index + 1]]
  {
    var q := p.(playing := false, index := p.index + 1);
    if p.counting then q.(pause := true) else Next(q)
  }

  /** A count's 600 ms pause ends: the next number, or the end. */
  function PauseEnded(p: Playback): (r: Playback)
    requires PlayValid(p) && p.pause
    ensures PlayValid(r)
    ensures r.chunks == p.chunks && r.index == p.index && r.start == p.start && r.counting && r.countSeen == p.countSeen
    ensures p.index == |p.chunks| ==> !r.isSpeaking && r.utterances == p.utterances
    ensures p.index < |p.chunks| ==> r.playing && r.utterances == p.utterances + [p.chunks[p.index]]
  {
    Next(p.(pause := false))
  }

  /** An utterance error: speaking stops and the sequence goes no further. */
  function ChunkFailed(p: Playback): (r: Playback)
    requires PlayValid(p) && p.playing
    ensures PlayValid(r)
    ensures !r.isSpeaking && !r.playing && !r.pause && r.failed
    ensures r.utterances == p.utterances && r.index == p.index && r.chunks == p.chunks
  {
    p.(playing := false, isSpeaking := false, failed := true)
  }

  /** What a sequence does when every utterance ends normally. */
  function Finish(p: Playback): (r: Playback)
    requires PlayValid(p)
    decreases 2 * (|p.chunks| - p.index) + (if p.pause then 1 else 0)
  {
    if p.playing then Finish(ChunkEnded(p))
    else if p.pause then Finish(PauseEnded(p))
    else p
  }

  /** Without an error a sequence plays every remaining chunk, one after the
      other in order, and then stops speaking. */
  lemma {:induction false} FinishPlaysAll(p: Playback)
    requires PlayValid(p) && !p.failed
    ensures PlayValid(Finish(p)) && !Finish(p).isSpeaking
    ensures Finish(p).utterances == p.utterances[..p.start] + p.chunks
    decreases 2 * (|p.chunks| - p.index) + (if p.pause then 1 else 0)
  {
    if p.playing {
      var q := ChunkEnded(p);
      FinishPlaysAll(q);
      assert q.utterances[..q.start] == p.utterances[..p.start];
    } else if p.pause {
      var q := PauseEnded(p);
      FinishPlaysAll(q);
      assert q.utterances[..q.start] == p.utterances[..p.start];
    } else {
      assert p.index == |p.chunks|;
      assert p.utterances == p.utterances[..p.start] + p.utterances[p.start..];
    }
  }

  /** A launched sequence that meets no error hands exactly its chunks to the
      synthesiser, in order, after what was spoken before. */
  lemma {:induction false} LaunchPlaysAll(p: Playback, chunks: seq<string>, counting: bool, seen: Snapshot)
    ensures Finish(Launch(p, chunks, counting, seen)).utterances == p.utterances + chunks
    ensures !Finish(Launch(p, chunks, counting, seen)).isSpeaking
  {
    var q := Launch(p, chunks, counting, seen);
    FinishPlaysAll(q);
    assert q.utterances[..q.start] == p.utterances;
  }

  /** The numbers `executeVoiceCount(target)` says: "1" up to `target`. */
  function CountChunks(target: int): (r: seq<string>)
    ensures |r| == if target > 0 then target else 0
  {
    seq(if target > 0 then target else 0, i => IntToString(i + 1))
  }

  /** The i-th utterance of a count reads back as i + 1. */
  lemma {:induction false} CountChunksRead(target: int, i: nat)
    requires i < |CountChunks(target)|
    ensures ParseInt(CountChunks(target)[i]) == Some(i + 1)
  {
    var s := IntToString(i + 1);
    assert CountChunks(target)[i] == s;
    ReadsBack(s, i + 1);
  }

  lemma {:induction false} ReadsBack(s: string, n: int)
    requires s == IntToString(n)
    ensures ParseInt(s) == Some(n)
  {
    ParseIntRoundTrip(n);
  }

  // ---------------------------------------------------------------------------
  // Conversation results and the wake phrase

  /** One entry of `event.results` from `resultIndex` on: whether it is final,
      and its first alternative's transcript. */
  datatype SpeechResult = SpeechResult(isFinal: bool, transcript: string)

  function Finals(rs: seq<SpeechResult>): string
    decreases |rs|
  {
    if rs == [] then ""
    else Finals(rs[..|rs| - 1]) + (if rs[|rs| - 1].isFinal then rs[|rs| - 1].transcript else "")
  }

  function Interims(rs: seq<SpeechResult>): string
    decreases |rs|
  {
    if rs == [] then ""
    else Interims(rs[..|rs| - 1]) + (if rs[|rs| - 1].isFinal then "" else rs[|rs| - 1].transcript)
  }

  /** Every character of a result lands in exactly one of the two texts. */
  lemma {:induction false} TranscriptsShare(rs: seq<SpeechResult>)
    ensures |Finals(rs)| + |Interims(rs)| == TotalLength(rs)
    decreases |rs|
  {
    if rs != [] {
      TranscriptsShare(rs[..|rs| - 1]);
    }
  }

  function TotalLength(rs: seq<SpeechResult>): nat
    decreases |rs|
  {
    if rs == [] then 0 else TotalLength(rs[..|rs| - 1]) + |rs[|rs| - 1].transcript|
  }

  /** The loop of `onresult` that sorts transcripts into final and interim text. */
  method Transcripts(rs: seq<SpeechResult>) returns (final: string, interim: string)
    ensures final == Finals(rs) && interim == Interims(rs)
  {
    final, interim := "", "";
    var i := 0;
    while i < |rs|
      invariant 0 <= i <= |rs|
      invariant final == Finals(rs[..i]) && interim == Interims(rs[..i])
    {
      assert rs[..i + 1][..i] == rs[..i];
      if rs[i].isFinal {
        final := final + rs[i].transcript;
      } else {
        interim := interim + rs[i].transcript;
      }
      i := i + 1;
    }
    assert rs[..i] == rs;
  }

  const WAKE_TRIGGERS: seq<string> := ["hey marco", "wake up marco", "wake up", "system online", "marco"]

  /** The standby check on `(final + " " + interim).toLowerCase()`. */
  predicate WakeHeard(final: string, interim: string) {
    exists i :: 0 <= i < |WAKE_TRIGGERS| && Contains(Lower(final + " " + interim), WAKE_TRIGGERS[i])
  }

  /** "hey marco" and "wake up marco" add nothing: the wake phrase is heard
      exactly when the text contains "marco", "wake up" or "system online". */
  lemma {:induction false} WakeHeardIff(final: string, interim: string)
    ensures WakeHeard(final, interim) <==>
      var t := Lower(final + " " + interim);
      Contains(t, "marco") || Contains(t, "wake up") || Contains(t, "system online")
  {
    var t := Lower(final + " " + interim);
    var marco := WAKE_TRIGGERS[4];
    assert WAKE_TRIGGERS[2] == "wake up" && WAKE_TRIGGERS[3] == "system online" && marco == "marco";
    if Contains(t, WAKE_TRIGGERS[0]) {
      assert OccursAt(WAKE_TRIGGERS[0], marco, 4);
      ContainsAt(WAKE_TRIGGERS[0], marco, 4);
      ContainsTrans(t, WAKE_TRIGGERS[0], marco);
    }
    if Contains(t, WAKE_TRIGGERS[1]) {
      assert OccursAt(WAKE_TRIGGERS[1], marco, 8);
      ContainsAt(WAKE_TRIGGERS[1], marco, 8);
      ContainsTrans(t, WAKE_TRIGGERS[1], marco);
    }
  }

  /** What a result asks for in conversation mode: the trimmed final text is
      sent; failing that, the trimmed interim text waits for silence. */
  datatype Hearing = Say(text: string) | Hold(text: string) | Quiet

  function Hear(final: string, heard: string): (h: Hearing)
    ensures h.Say? <==> Trim(final) != ""
    ensures h.Say? ==> h.text == Trim(final) && !IsBlank(h.text)
    ensures h.Hold? <==> Trim(final) == "" && Trim(heard) != ""
    ensures h.Hold? ==> h.text == Trim(heard) && !IsBlank(h.text)
  {
    var said, pending := Trim(final), Trim(heard);
    if said != "" then TrimIdempotent(final); Say(said)
    else if pending != "" then TrimIdempotent(heard); Hold(pending)
    else Quiet
  }

  // ---------------------------------------------------------------------------
  // The greeting of the boot sequence

  function TimePhrase(hour: int): string {
    if 5 <= hour < 12 then "Morning" else if 12 <= hour < 17 then "Afternoon" else "Evening"
  }

  const PROMPTS: seq<string> := ["How may I assist you?", "Systems at your command.",
    "How are you feeling?", "What is your directive?"]

  /** `getDynamicGreeting()` for the hour of the clock and the prompt picked at
      random. */
  function Greeting(hour: int, pick: nat, master: string): string
    requires pick < |PROMPTS|
  {
    "Good " + TimePhrase(hour) + ", " + master + ". Systems Online. " + PROMPTS[pick]
  }

  /** Morning from 5 to 11 o'clock, afternoon from 12 to 16, evening otherwise. */
  lemma {:induction false} TimePhraseHours(hour: int)
    ensures TimePhrase(hour) == "Morning" <==> 5 <= hour < 12
    ensures TimePhrase(hour) == "Afternoon" <==> 12 <= hour < 17
    ensures TimePhrase(hour) == "Evening" <==> hour < 5 || hour >= 17
  {
  }

  // ---------------------------------------------------------------------------
  // The component

  /** The dependencies of the live-mode effect. */
  datatype Deps = Deps(isLiveMode: bool, isSpeaking: bool, isLoading: bool,
                       isListening: bool, isWakeWordStandby: bool, wakeWordEnabled: bool)

  /** A pending restart timer of the live-mode effect: conversation (300 ms) or
      standby (500 ms), and the dependencies of the run that armed it. */
  datatype Armed = Armed(conversation: bool, deps: Deps)

  /** The silence timer: the recogniser whose `onresult` armed it and the
      trimmed interim text it will send. */
  datatype Pending = Pending(session: nat, text: string)

  /** One `executeVoiceCount(target)` with voice on, as capture and playback:
      capture stops, the numbers are launched, and when there are none to say
      the count ends at once and conversation capture resumes if `resume`
      (live mode on and recognition supported). */
  function CountStep(c: Capture, p: Playback, target: int, seen: Snapshot, resume: bool): (r: (Capture, Playback))
    ensures r.1 == Launch(p, CountChunks(target), true, seen)
    ensures target > 0 || !resume ==> r.0 == Stopped(c)
  {
    (if CountChunks(target) == [] && resume then Started(Stopped(c), Session(true, seen)) else Stopped(c),
     Launch(p, CountChunks(target), true, seen))
  }

  /** The end of a reply, as capture and playback: a reply with text is spoken
      when voice is on (capture stops and its chunks launch) and otherwise
      changes neither; an empty reply resumes conversation capture if `resume`
      (live mode on and recognition supported). */
  function AnswerStep(c: Capture, p: Playback, hasText: bool, chunks: seq<string>, voice: bool, resume: bool,
                      seen: Snapshot): (Capture, Playback)
  {
    if hasText then
      if voice then (Stopped(c), Launch(p, chunks, false, p.countSeen)) else (c, p)
    else
      (if resume then Started(c, Session(true, seen)) else c, p)
  }

  /** The counts among a reply's effects, run one after the other. */
  function AfterCounts(c: Capture, p: Playback, effects: seq<ChatCommands.Effect>, seen: Snapshot, resume: bool): (r: (Capture, Playback))
    ensures (forall e :: e in effects ==> !e.VoiceCount?) ==> r == (c, p)
    decreases |effects|
  {
    if effects == [] then (c, p)
    else
      var q := AfterCounts(c, p, effects[..|effects| - 1], seen, resume);
      var e := effects[|effects| - 1];
      if e.VoiceCount? then CountStep(q.0, q.1, e.target, seen, resume) else q
  }

  /** Each count cancels the one before: what is left is the last count's
      step, taken from the state the counts before it left. */
  lemma {:induction false} CountsLast(c: Capture, p: Playback, effects: seq<ChatCommands.Effect>, seen: Snapshot, resume: bool, k: nat)
    requires k < |effects| && effects[k].VoiceCount?
    requires forall j :: k < j < |effects| ==> !effects[j].VoiceCount?
    ensures var q := AfterCounts(c, p, effects[..k], seen, resume);
      AfterCounts(c, p, effects, seen, resume) == CountStep(q.0, q.1, effects[k].target, seen, resume)
    ensures AfterCounts(c, p, effects, seen, resume).1.chunks == CountChunks(effects[k].target)
    ensures AfterCounts(c, p, effects, seen, resume).1.counting
    decreases |effects|
  {
    var n := |effects|;
    if k == n - 1 {
      assert effects[..n - 1] == effects[..k];
    } else {
      CountsLast(c, p, effects[..n - 1], seen, resume, k);
      assert effects[..n - 1][..k] == effects[..k];
    }
  }

  /** The fields a sent text or a speech result can change, as one value. */
  datatype Before = Before(cap: Capture, sent: seq<string>, commands: seq<string>, aliasDue: seq<string>,
                           replies: nat, isLoading: bool, isProcessing: bool, attached: bool,
                           isListening: bool, isWakeWordStandby: bool, micVolume: int)

  /** `handleSend` past the blank-line check, on those fields: capture stopped
      with its indicators cleared, the image detached, the text logged, and by
      its route the slash command run (processing off again), the alias
      command due, or a reply awaited with loading on. */
  function AfterSend(text: string, route: ChatCommands.Route, b: Before): (r: Before)
    ensures r.cap == Stopped(b.cap) && r.sent == b.sent + [text] && !r.attached
    ensures !r.isListening && !r.isWakeWordStandby && r.micVolume == 0
  {
    var s := b.(cap := Stopped(b.cap), sent := b.sent + [text], attached := false, isProcessing := true,
                isListening := false, isWakeWordStandby := false, micVolume := 0);
    match route
    case Slash => s.(commands := b.commands + [text], isProcessing := false)
    case Alias(c) => s.(aliasDue := b.aliasDue + [c])
    case Ask => s.(isLoading := true, replies := b.replies + 1)
    case Ignored => s
  }

  class VoiceLoop {
    /** `'webkitSpeechRecognition' in window`. */
    const supported: bool
    const voiceEnabled: bool
    /** `cleanTextForSpeech`. */
    const clean: string -> string

    var cap: Capture
    var play: Playback
    var isListening: bool
    var isWakeWordStandby: bool
    var micVolume: int
    var interim: string
    var silence: Option<Pending>
    var restart: Option<Armed>
    /** The state and its ref, `isLiveModeRef`, always set together. */
    var isLiveMode: bool
    /** `isWakeWordEnabledRef`. */
    var wakeWordEnabled: bool
    /** `isProcessingRef`. */
    var isProcessing: bool
    var isLoading: bool
    /** An image is attached to the next message. */
    var attached: bool
    /** Replies of the model still awaited. */
    var replies: nat
    /** Alias commands waiting their 500 ms. */
    var aliasDue: seq<string>
    /** Greetings waiting their 2000 ms. */
    var greetingsDue: nat
    /** Every text given to `handleSend` and not dropped. */
    var sent: seq<string>
    /** Every slash command run: typed, or reached through an alias. */
    var commands: seq<string>
    /** Boot sequences run. */
    var boots: nat

    predicate Valid()
      reads this`cap, this`play
    {
      CaptureValid(cap) && PlayValid(play)
    }

    ghost function Now(): Before
      reads this`cap, this`sent, this`commands, this`aliasDue, this`replies, this`isLoading
      reads this`isProcessing, this`attached, this`isListening, this`isWakeWordStandby, this`micVolume
    {
      Before(cap, sent, commands, aliasDue, replies, isLoading, isProcessing, attached,
             isListening, isWakeWordStandby, micVolume)
    }

    /** The capture indicators: the two flags, the silence timer, the volume
        and the interim text; `stopRecognition` clears them all. */
    ghost function Indicators(): (bool, bool, Option<Pending>, int, string)
      reads this`isListening, this`isWakeWordStandby, this`silence, this`micVolume, this`interim
    {
      (isListening, isWakeWordStandby, silence, micVolume, interim)
    }

    function DepsNow(): Deps
      reads this
    {
      Deps(isLiveMode, play.isSpeaking, isLoading, isListening, isWakeWordStandby, wakeWordEnabled)
    }

    constructor(supported: bool, voiceEnabled: bool, clean: string -> string, wakeWordEnabled: bool)
      ensures Valid() && cap == Capture(None, map[], {}, 0) && play == Silent()
      ensures this.supported == supported && this.voiceEnabled == voiceEnabled && this.clean == clean
      ensures this.wakeWordEnabled == wakeWordEnabled
      ensures !isListening && !isWakeWordStandby && !isLiveMode && !isProcessing && !isLoading && !play.isSpeaking
      ensures !attached && silence.None? && restart.None? && sent == [] && commands == [] && boots == 0
    {
      this.supported := supported;
      this.voiceEnabled := voiceEnabled;
      this.clean := clean;
      this.wakeWordEnabled := wakeWordEnabled;
      cap := Capture(None, map[], {}, 0);
      play := Silent();
      isListening, isWakeWordStandby, micVolume, interim := false, false, 0, "";
      silence, restart := None, None;
      isLiveMode, isProcessing, isLoading, attached := false, false, false, false;
      replies, aliasDue, greetingsDue := 0, [], 0;
      sent, commands, boots := [], [], 0;
    }

    /** `startRecognition(mode)`. */
    method StartRecognition(conversation: bool, seen: Snapshot)
      requires CaptureValid(cap)
      modifies this`cap
      ensures CaptureValid(cap)
      ensures cap == if supported then Started(old(cap), Session(conversation, seen)) else old(cap)
      ensures OneLive(old(cap)) ==> OneLive(cap)
    {
      if !supported {
        return;
      }
      if OneLive(cap) {
        StartedOneLive(cap, Session(conversation, seen));
      }
      cap := Started(cap, Session(conversation, seen));
    }

    /** `stopRecognition()`. */
    method StopRecognition()
      requires CaptureValid(cap)
      modifies this`cap, this`isListening, this`isWakeWordStandby, this`silence, this`micVolume, this`interim
      ensures CaptureValid(cap)
      ensures cap == Stopped(old(cap))
      ensures !isListening && !isWakeWordStandby && silence.None? && micVolume == 0 && interim == ""
      ensures OneLive(old(cap)) ==> OneLive(cap) && Live(cap) == {}
    {
      if OneLive(cap) {
        StoppedNoneLive(cap);
      }
      cap := Stopped(cap);
      isListening, isWakeWordStandby := false, false;
      silence := None;
      micVolume := 0;
      interim := "";
    }

    /** A recogniser's `onstart`: the flags of its mode. */
    method OnStart(id: nat)
      requires CaptureValid(cap) && id in cap.running
      modifies this`isListening, this`isWakeWordStandby
      ensures isListening == cap.running[id].conversation
      ensures isWakeWordStandby == !cap.running[id].conversation
    {
      if cap.running[id].conversation {
        isListening, isWakeWordStandby := true, false;
      } else {
        isListening, isWakeWordStandby := false, true;
      }
    }

    /** `handleSend(text)`: a blank text without an image is dropped; otherwise
        capture stops, processing starts, and the text goes where its route
        says. */
    method Send(text: string)
      requires CaptureValid(cap)
      modifies this`cap, this`isListening, this`isWakeWordStandby, this`silence, this`micVolume, this`interim
      modifies this`isProcessing, this`attached, this`sent, this`commands, this`aliasDue, this`isLoading, this`replies
      ensures CaptureValid(cap)
      ensures OneLive(old(cap)) ==> OneLive(cap)
      ensures IsBlank(text) && !old(attached) ==> unchanged(this)
      ensures !(IsBlank(text) && !old(attached)) ==> Sent(text, ChatCommands.RouteOf(text, old(attached)), old(Now()))
    {
      var route := ChatCommands.RouteOf(text, attached);
      if route == ChatCommands.Ignored {
        return;
      }
      Dispatch(text, route);
    }

    /** A recogniser stops itself and hands a text that is not blank to
        `handleSend`: the text is sent and capture is stopped. */
    method Deliver(id: nat, text: string)
      requires CaptureValid(cap) && !IsBlank(text)
      modifies this`cap, this`isListening, this`isWakeWordStandby, this`silence, this`micVolume, this`interim
      modifies this`isProcessing, this`attached, this`sent, this`commands, this`aliasDue, this`isLoading, this`replies
      ensures CaptureValid(cap)
      ensures OneLive(old(cap)) ==> OneLive(cap)
      ensures Sent(text, ChatCommands.RouteOf(text, old(attached)), old(Now()).(cap := Told(old(cap), id)))
      ensures sent == old(sent) + [text] && id !in Live(cap) && cap.handle.None? && silence.None?
    {
      cap := Told(cap, id);
      Send(text);
    }

    /** What a text that is not dropped leaves behind: capture stopped, the text
        logged, and by its route a slash command run, an alias due, or a reply
        awaited with loading on. */
    ghost predicate Sent(text: string, route: ChatCommands.Route, b: Before)
      reads this`cap, this`isListening, this`isWakeWordStandby, this`silence, this`micVolume, this`interim
      reads this`isProcessing, this`attached, this`sent, this`commands, this`aliasDue, this`isLoading, this`replies
    {
      Now() == AfterSend(text, route, b) && silence.None? && interim == ""
    }

    method Dispatch(text: string, route: ChatCommands.Route)
      requires CaptureValid(cap) && route != ChatCommands.Ignored
      modifies this`cap, this`isListening, this`isWakeWordStandby, this`silence, this`micVolume, this`interim
      modifies this`isProcessing, this`attached, this`sent, this`commands, this`aliasDue, this`isLoading, this`replies
      ensures CaptureValid(cap)
      ensures OneLive(old(cap)) ==> OneLive(cap)
      ensures Sent(text, route, old(Now()))
    {
      ghost var b := Now();
      StopRecognition();
      isProcessing := true;
      attached := false;
      sent := sent + [text];
      ghost var s := AfterSend(text, ChatCommands.Ignored, b);
      assert Now() == s;
      match route {
        case Slash =>
          commands := commands + [text];
          isProcessing := false;
        case Alias(c) =>
          aliasDue := aliasDue + [c];
        case Ask =>
          isLoading := true;
          replies := replies + 1;
      }
    }

    /** `runBootSequence()`: live mode on and a greeting due in 2000 ms. */
    method RunBoot()
      modifies this`isLiveMode, this`boots, this`greetingsDue
      ensures isLiveMode && boots == old(boots) + 1 && greetingsDue == old(greetingsDue) + 1
    {
      isLiveMode := true;
      boots := boots + 1;
      greetingsDue := greetingsDue + 1;
    }

    /** A recogniser's `onresult`.  The silence timer is cancelled first.  In
        conversation mode a non-blank final transcript stops the recogniser and
        sends its trimmed text; otherwise a non-blank interim transcript arms
        the silence timer with its trimmed text.  In standby the wake phrase
        stops the recogniser and boots. */
    method OnResult(id: nat, results: seq<SpeechResult>) returns (ghost final: string, ghost heard: string)
      requires CaptureValid(cap) && id in cap.running
      modifies this`cap, this`isListening, this`isWakeWordStandby, this`silence, this`micVolume, this`interim
      modifies this`isProcessing, this`attached, this`sent, this`commands, this`aliasDue, this`isLoading, this`replies
      modifies this`isLiveMode, this`boots, this`greetingsDue
      ensures CaptureValid(cap)
      ensures OneLive(old(cap)) ==> OneLive(cap)
      ensures final == Finals(results) && heard == Interims(results)
      ensures old(cap.running[id].conversation) ==>
        && Conversed(id, Hear(final, heard), heard, old(Now()))
        && isLiveMode == old(isLiveMode) && boots == old(boots) && greetingsDue == old(greetingsDue)
      ensures !old(cap.running[id].conversation) ==>
        && Now() == old(Now()).(cap := cap) && interim == old(interim) && silence.None?
        && (WakeHeard(final, heard) ==>
              cap == Told(old(cap), id) && isLiveMode && boots == old(boots) + 1 && greetingsDue == old(greetingsDue) + 1)
        && (!WakeHeard(final, heard) ==>
              cap == old(cap) && isLiveMode == old(isLiveMode) && boots == old(boots) && greetingsDue == old(greetingsDue))
    {
      var conversation := cap.running[id].conversation;
      var f, i := Transcripts(results);
      final, heard := f, i;
      if conversation {
        Converse(id, Hear(f, i), i);
      } else {
        Standby(id, f, i);
      }
    }

    /** `onresult` in conversation mode: the silence timer is cleared first. */
    method Converse(id: nat, h: Hearing, heard: string)
      requires CaptureValid(cap) && id in cap.running
      requires h.Say? ==> !IsBlank(h.text)
      modifies this`cap, this`isListening, this`isWakeWordStandby, this`silence, this`micVolume, this`interim
      modifies this`isProcessing, this`attached, this`sent, this`commands, this`aliasDue, this`isLoading, this`replies
      ensures CaptureValid(cap)
      ensures OneLive(old(cap)) ==> OneLive(cap)
      ensures Conversed(id, h, heard, old(Now()))
    {
      silence := None;
      interim := heard;
      match h {
        case Say(text) =>
          Deliver(id, text);
        case Hold(text) =>
          silence := Some(Pending(id, text));
        case Quiet =>
      }
    }

    /** After a conversation-mode result: a text to say was sent, on its route,
        after its recogniser was told to stop; otherwise nothing else changed,
        the interim text shows, and the silence timer holds the text waiting,
        if any. */
    ghost predicate Conversed(id: nat, h: Hearing, heard: string, b: Before)
      reads this`cap, this`isListening, this`isWakeWordStandby, this`silence, this`micVolume, this`interim
      reads this`isProcessing, this`attached, this`sent, this`commands, this`aliasDue, this`isLoading, this`replies
    {
      && (h.Say? ==>
            Sent(h.text, ChatCommands.RouteOf(h.text, b.attached), b.(cap := Told(b.cap, id))) && id !in Live(cap))
      && (!h.Say? ==>
            Now() == b && interim == heard && silence == (if h.Hold? then Some(Pending(id, h.text)) else None))
    }

    /** `onresult` in standby, after the silence timer is cleared: the wake
        phrase stops the recogniser and boots. */
    method Standby(id: nat, final: string, heard: string)
      requires CaptureValid(cap) && id in cap.running
      modifies this`cap, this`silence, this`isLiveMode, this`boots, this`greetingsDue
      ensures CaptureValid(cap)
      ensures OneLive(old(cap)) ==> OneLive(cap)
      ensures Now() == old(Now()).(cap := cap) && interim == old(interim) && silence.None?
      ensures WakeHeard(final, heard) ==>
        && cap == Told(old(cap), id) && id !in Live(cap)
        && isLiveMode && boots == old(boots) + 1 && greetingsDue == old(greetingsDue) + 1
      ensures !WakeHeard(final, heard) ==>
        cap == old(cap) && isLiveMode == old(isLiveMode) && boots == old(boots) && greetingsDue == old(greetingsDue)
    {
      silence := None;
      if WakeHeard(final, heard) {
        cap := Told(cap, id);
        RunBoot();
      }
    }

    /** The silence timer fires: its recogniser is told to stop and the text is
        sent. */
    method SilenceFire()
      requires CaptureValid(cap) && silence.Some?
      modifies this`cap, this`isListening, this`isWakeWordStandby, this`silence, this`micVolume, this`interim
      modifies this`isProcessing, this`attached, this`sent, this`commands, this`aliasDue, this`isLoading, this`replies
      ensures CaptureValid(cap)
      ensures OneLive(old(cap)) ==> OneLive(cap)
      ensures sent == old(sent) + [old(silence.value.text)] || old(IsBlank(silence.value.text))
      ensures old(silence.value.session) !in Live(cap) && silence.None?
      ensures var p := old(silence.value);
        !(IsBlank(p.text) && !old(attached)) ==>
          Sent(p.text, ChatCommands.RouteOf(p.text, old(attached)), old(Now()).(cap := Told(old(cap), p.session)))
      ensures var p := old(silence.value);
        IsBlank(p.text) && !old(attached) ==>
          Now() == old(Now()).(cap := Told(old(cap), p.session)) && interim == old(interim)
    {
      var p := silence.value;
      silence := None;
      cap := Told(cap, p.session);
      ghost var b := Now();
      assert b == old(Now()).(cap := Told(old(cap), p.session));
      Send(p.text);
      assert IsBlank(p.text) && !old(attached) ==> Now() == b;
    }

    /** A recogniser's `onerror`: "aborted" and "no-speech" change nothing; any
        other error stops recognition. */
    method OnError(id: nat, code: string)
      requires CaptureValid(cap) && id in cap.running
      modifies this`cap, this`isListening, this`isWakeWordStandby, this`silence, this`micVolume, this`interim
      ensures CaptureValid(cap)
      ensures OneLive(old(cap)) ==> OneLive(cap)
      ensures code == "aborted" || code == "no-speech" ==>
        cap == old(cap) && isListening == old(isListening) && isWakeWordStandby == old(isWakeWordStandby)
        && silence == old(silence) && micVolume == old(micVolume) && interim == old(interim)
      ensures code != "aborted" && code != "no-speech" ==>
        cap == Stopped(old(cap)) && !isListening && !isWakeWordStandby && silence.None? && micVolume == 0 && interim == ""
    {
      if code == "aborted" || code == "no-speech" {
        return;
      }
      StopRecognition();
    }

    /** The restart of `onend`: conversation capture when live mode is on, else
        standby when the wake word is enabled, and only when not processing and
        the render of the recogniser was neither loading nor speaking. */
    method RestartAfterEnd(seen: Snapshot)
      requires CaptureValid(cap)
      modifies this`cap
      ensures CaptureValid(cap)
      ensures OneLive(old(cap)) ==> OneLive(cap)
      ensures var go := !isProcessing && !seen.isLoading && !seen.isSpeaking;
        cap == if go && isLiveMode then (if supported then Started(old(cap), Session(true, seen)) else old(cap))
               else if go && wakeWordEnabled then (if supported then Started(old(cap), Session(false, seen)) else old(cap))
               else old(cap)
    {
      if !isProcessing && !seen.isLoading && !seen.isSpeaking {
        if isLiveMode {
          StartRecognition(true, seen);
        } else if wakeWordEnabled {
          StartRecognition(false, seen);
        }
      }
    }

    /** A recogniser's `onend`, as written: the handle is cleared whichever
        recogniser it holds, the flags drop, and capture may restart. */
    method OnEnd(id: nat)
      requires CaptureValid(cap) && id in cap.running
      modifies this`cap, this`isListening, this`isWakeWordStandby, this`micVolume
      ensures CaptureValid(cap)
      ensures !isListening && !isWakeWordStandby && micVolume == 0
      ensures var seen := old(cap.running[id].seen);
        var go := !isProcessing && !seen.isLoading && !seen.isSpeaking;
        var e := Ended(old(cap), id);
        cap == if go && isLiveMode then (if supported then Started(e, Session(true, seen)) else e)
               else if go && wakeWordEnabled then (if supported then Started(e, Session(false, seen)) else e)
               else e
    {
      var seen := cap.running[id].seen;
      cap := Ended(cap, id);
      isListening, isWakeWordStandby := false, false;
      micVolume := 0;
      RestartAfterEnd(seen);
    }

    /** `onend` that acts only when the handle holds the recogniser that ended;
        the end of any other recogniser is only noted. */
    method OnEndChecked(id: nat)
      requires CaptureValid(cap) && id in cap.running
      modifies this`cap, this`isListening, this`isWakeWordStandby, this`micVolume
      ensures CaptureValid(cap)
      ensures OneLive(old(cap)) ==> OneLive(cap)
      ensures id !in cap.running || (old(cap.handle) == Some(id) && cap.handle == Some(id))
      ensures old(cap.handle) != Some(id) ==>
        cap == EndedChecked(old(cap), id) && isListening == old(isListening)
        && isWakeWordStandby == old(isWakeWordStandby) && micVolume == old(micVolume)
      ensures old(cap.handle) == Some(id) ==> !isListening && !isWakeWordStandby && micVolume == 0
      ensures old(cap.handle) == Some(id) ==>
        var seen := old(cap.running[id].seen);
        var go := !isProcessing && !seen.isLoading && !seen.isSpeaking;
        var e := EndedChecked(old(cap), id);
        cap == if go && isLiveMode then (if supported then Started(e, Session(true, seen)) else e)
               else if go && wakeWordEnabled then (if supported then Started(e, Session(false, seen)) else e)
               else e
    {
      if cap.handle != Some(id) {
        cap := EndedChecked(cap, id);
        return;
      }
      var seen := cap.running[id].seen;
      if OneLive(cap) {
        OneLiveAtMostOne(cap);
      }
      cap := EndedChecked(cap, id);
      isListening, isWakeWordStandby := false, false;
      micVolume := 0;
      RestartAfterEnd(seen);
    }

    /** `speak(text)`: nothing with voice disabled; otherwise capture stops and
        the chunks of the cleaned text start playing, the unterminated tail
        included. */
    method Speak(text: string)
      requires Valid()
      modifies this`cap, this`isListening, this`isWakeWordStandby, this`silence, this`micVolume, this`interim
      modifies this`play
      ensures Valid()
      ensures OneLive(old(cap)) ==> OneLive(cap)
      ensures !voiceEnabled ==> unchanged(this)
      ensures voiceEnabled ==>
        && cap == Stopped(old(cap)) && Indicators() == (false, false, None, 0, "")
        && play == Launch(old(play), ChatPlayback.SpokenChunks(clean(text)), false, old(play.countSeen))
        && play.isSpeaking
    {
      if !voiceEnabled {
        return;
      }
      StopRecognition();
      play := Launch(play, ChatPlayback.SpokenChunks(clean(text)), false, play.countSeen);
    }

    /** After a count's last pause, conversation capture resumes when live mode
        is on. */
    method ResumeAfterCount()
      requires CaptureValid(cap)
      modifies this`cap
      ensures CaptureValid(cap)
      ensures OneLive(old(cap)) ==> OneLive(cap)
      ensures cap == if play.counting && !play.isSpeaking && !play.failed && isLiveMode && supported
                     then Started(old(cap), Session(true, play.countSeen)) else old(cap)
    {
      if play.counting && !play.isSpeaking && !play.failed && isLiveMode {
        StartRecognition(true, play.countSeen);
      }
    }

    /** `executeVoiceCount(target)`: capture stops and "1" .. `target` are
        spoken with a pause between them. */
    method VoiceCount(target: int, seen: Snapshot)
      requires Valid()
      modifies this`cap, this`isListening, this`isWakeWordStandby, this`silence, this`micVolume, this`interim
      modifies this`play
      ensures Valid()
      ensures OneLive(old(cap)) ==> OneLive(cap)
      ensures !voiceEnabled ==> unchanged(this)
      ensures voiceEnabled ==>
        && (cap, play) == CountStep(old(cap), old(play), target, seen, isLiveMode && supported)
        && Indicators() == (false, false, None, 0, "")
    {
      if !voiceEnabled {
        return;
      }
      StopRecognition();
      play := Launch(play, CountChunks(target), true, seen);
      ResumeAfterCount();
    }

    /** The current utterance's `onend`. */
    method ChunkEnd()
      requires Valid() && play.playing
      modifies this`play
      ensures Valid() && play == ChunkEnded(old(play))
    {
      play := ChunkEnded(play);
    }

    /** The current utterance's `onerror`. */
    method ChunkError()
      requires Valid() && play.playing
      modifies this`play
      ensures Valid() && play == ChunkFailed(old(play))
    {
      play := ChunkFailed(play);
    }

    /** A count's 600 ms pause ends. */
    method CountPauseFire()
      requires Valid() && play.pause
      modifies this`play, this`cap
      ensures Valid() && play == PauseEnded(old(play))
      ensures OneLive(old(cap)) ==> OneLive(cap)
      ensures cap == if !play.isSpeaking && isLiveMode && supported
                     then Started(old(cap), Session(true, play.countSeen)) else old(cap)
    {
      play := PauseEnded(play);
      ResumeAfterCount();
    }

    /** The greeting timer of the boot sequence speaks the greeting. */
    method GreetingFire(hour: int, pick: nat, master: string)
      requires Valid() && greetingsDue > 0 && pick < |PROMPTS|
      modifies this`cap, this`isListening, this`isWakeWordStandby, this`silence, this`micVolume, this`interim
      modifies this`play, this`greetingsDue
      ensures Valid()
      ensures OneLive(old(cap)) ==> OneLive(cap)
      ensures greetingsDue == old(greetingsDue) - 1
      ensures voiceEnabled ==>
        && play == Launch(old(play), ChatPlayback.SpokenChunks(clean(Greeting(hour, pick, master))), false, old(play.countSeen))
        && cap == Stopped(old(cap)) && Indicators() == (false, false, None, 0, "")
      ensures !voiceEnabled ==> play == old(play) && cap == old(cap) && Indicators() == old(Indicators())
    {
      greetingsDue := greetingsDue - 1;
      Speak(Greeting(hour, pick, master));
    }

    /** An alias's 500 ms timer: its slash command runs and processing ends. */
    method AliasFire()
      requires aliasDue != []
      modifies this`aliasDue, this`commands, this`isProcessing
      ensures aliasDue == old(aliasDue[1..]) && commands == old(commands) + [old(aliasDue[0])] && !isProcessing
    {
      commands := commands + [aliasDue[0]];
      aliasDue := aliasDue[1..];
      isProcessing := false;
    }

    /** The model's reply arrives: its tags are dispatched (a count plays at
        once), loading and processing end, and the cleaned reply is spoken; an
        empty reply resumes conversation capture in live mode. */
    method Reply(raw: string, seen: Snapshot)
      requires Valid() && replies > 0
      modifies this`cap, this`isListening, this`isWakeWordStandby, this`silence, this`micVolume, this`interim
      modifies this`play, this`isLoading, this`isProcessing, this`replies
      ensures Valid()
      ensures OneLive(old(cap)) ==> OneLive(cap)
      ensures !isLoading && !isProcessing && replies == old(replies) - 1
      ensures var text := Trim(Concat(ChatCommands.ScanTags(raw).gaps));
        var effects := ChatCommands.EffectsOf(ChatCommands.ScanTags(raw).tags);
        var q := if voiceEnabled then AfterCounts(old(cap), old(play), effects, seen, isLiveMode && supported)
                 else (old(cap), old(play));
        (cap, play) == AnswerStep(q.0, q.1, text != "", ChatPlayback.SpokenChunks(clean(text)), voiceEnabled,
                                  isLiveMode && supported, seen)
      ensures Trim(Concat(ChatCommands.ScanTags(raw).gaps)) != "" && voiceEnabled ==>
        play.isSpeaking && Indicators() == (false, false, None, 0, "")
    {
      var text, effects := ChatCommands.ProcessResponse(raw);
      ghost var q := if voiceEnabled then AfterCounts(cap, play, effects, seen, isLiveMode && supported) else (cap, play);
      RunCounts(effects, seen);
      assert (cap, play) == q;
      Answer(text, seen);
    }

    /** The end of a reply: loading and processing end, and the cleaned reply
        is spoken, or conversation capture resumes in live mode. */
    method Answer(text: string, seen: Snapshot)
      requires Valid() && replies > 0
      modifies this`cap, this`isListening, this`isWakeWordStandby, this`silence, this`micVolume, this`interim
      modifies this`play, this`isLoading, this`isProcessing, this`replies
      ensures Valid()
      ensures OneLive(old(cap)) ==> OneLive(cap)
      ensures !isLoading && !isProcessing && replies == old(replies) - 1
      ensures (cap, play) == AnswerStep(old(cap), old(play), text != "", ChatPlayback.SpokenChunks(clean(text)),
                                        voiceEnabled, isLiveMode && supported, seen)
      ensures text != "" && voiceEnabled ==>
        && play == Launch(old(play), ChatPlayback.SpokenChunks(clean(text)), false, old(play.countSeen)) && play.isSpeaking
        && cap == Stopped(old(cap)) && Indicators() == (false, false, None, 0, "")
      ensures text != "" && !voiceEnabled ==> play == old(play) && cap == old(cap) && Indicators() == old(Indicators())
      ensures text == "" ==>
        && play == old(play) && Indicators() == old(Indicators())
        && cap == if isLiveMode && supported then Started(old(cap), Session(true, seen)) else old(cap)
    {
      isLoading := false;
      isProcessing := false;
      replies := replies - 1;
      if text != "" {
        Speak(text);
      } else if isLiveMode {
        StartRecognition(true, seen);
      }
    }

    /** The counts among a reply's effects play one after the other, each
        cancelling the one before. */
    method RunCounts(effects: seq<ChatCommands.Effect>, seen: Snapshot)
      requires Valid()
      modifies this`cap, this`isListening, this`isWakeWordStandby, this`silence, this`micVolume, this`interim
      modifies this`play
      ensures Valid()
      ensures OneLive(old(cap)) ==> OneLive(cap)
      ensures (forall e :: e in effects ==> !e.VoiceCount?) || !voiceEnabled ==> unchanged(this)
      ensures voiceEnabled ==> (cap, play) == AfterCounts(old(cap), old(play), effects, seen, isLiveMode && supported)
      ensures voiceEnabled && (exists e :: e in effects && e.VoiceCount?) ==> Indicators() == (false, false, None, 0, "")
    {
      var i := 0;
      while i < |effects|
        invariant 0 <= i <= |effects|
        invariant Valid()
        invariant OneLive(old(cap)) ==> OneLive(cap)
        invariant (forall e :: e in effects[..i] ==> !e.VoiceCount?) || !voiceEnabled ==> unchanged(this)
        invariant voiceEnabled ==> (cap, play) == AfterCounts(old(cap), old(play), effects[..i], seen, isLiveMode && supported)
        invariant voiceEnabled && (exists e :: e in effects[..i] && e.VoiceCount?) ==> Indicators() == (false, false, None, 0, "")
      {
        assert effects[..i + 1][..i] == effects[..i];
        if effects[i].VoiceCount? {
          VoiceCount(effects[i].target, seen);
        }
        i := i + 1;
      }
      assert effects[..i] == effects;
    }

    /** The live-mode effect.  While loading, speaking or processing, open
        capture is stopped; otherwise live mode arms a conversation restart when
        not listening, and the wake word arms a standby restart when neither
        listening nor in standby.  A re-run clears the timer of the run before. */
    method LiveModeEffect()
      requires CaptureValid(cap)
      modifies this`cap, this`isListening, this`isWakeWordStandby, this`silence, this`micVolume, this`interim
      modifies this`restart
      ensures CaptureValid(cap)
      ensures OneLive(old(cap)) ==> OneLive(cap)
      ensures var busy := old(isLoading || play.isSpeaking || isProcessing);
        var stop := busy && old(isListening || isWakeWordStandby);
        && (stop ==> cap == Stopped(old(cap)) && !isListening && !isWakeWordStandby && silence.None?)
        && (!stop ==> cap == old(cap) && isListening == old(isListening) && isWakeWordStandby == old(isWakeWordStandby)
                      && silence == old(silence) && micVolume == old(micVolume) && interim == old(interim))
        && (busy ==> restart.None?)
        && (!busy && isLiveMode ==> restart == (if !isListening then Some(Armed(true, DepsNow())) else None))
        && (!busy && !isLiveMode ==>
              restart == (if wakeWordEnabled && !isListening && !isWakeWordStandby then Some(Armed(false, DepsNow())) else None))
    {
      restart := None;
      if isLoading || play.isSpeaking || isProcessing {
        if isListening || isWakeWordStandby {
          StopRecognition();
        }
        return;
      }
      if isLiveMode {
        if !isListening {
          restart := Some(Armed(true, DepsNow()));
        }
      } else if wakeWordEnabled && !isListening {
        if !isWakeWordStandby {
          restart := Some(Armed(false, DepsNow()));
        }
      }
    }

    /** The restart timer fires; it can only fire while the effect that armed
        it has not re-run. */
    method RestartFire()
      requires CaptureValid(cap) && restart.Some? && restart.value.deps == DepsNow()
      modifies this`cap, this`restart
      ensures CaptureValid(cap)
      ensures OneLive(old(cap)) ==> OneLive(cap)
      ensures restart.None?
      ensures var a := old(restart.value);
        var s := Session(a.conversation, Snapshot(a.deps.isLoading, a.deps.isSpeaking));
        cap == if supported && (!a.conversation || (!isProcessing && !a.deps.isSpeaking))
               then Started(old(cap), s) else old(cap)
    {
      var a := restart.value;
      restart := None;
      var seen := Snapshot(a.deps.isLoading, a.deps.isSpeaking);
      if a.conversation {
        if !isProcessing && !a.deps.isSpeaking {
          StartRecognition(true, seen);
        }
      } else {
        StartRecognition(false, seen);
      }
    }

    /** `toggleLiveMode()`: capture stops; turning on boots, turning off says
        "Voice systems standby.". */
    method ToggleLiveMode()
      requires Valid()
      modifies this`cap, this`isListening, this`isWakeWordStandby, this`silence, this`micVolume, this`interim
      modifies this`play, this`isLiveMode, this`boots, this`greetingsDue
      ensures Valid()
      ensures OneLive(old(cap)) ==> OneLive(cap) && Live(cap) == {}
      ensures cap == Stopped(old(cap)) && Indicators() == (false, false, None, 0, "")
      ensures isLiveMode == !old(isLiveMode)
      ensures isLiveMode ==> boots == old(boots) + 1 && greetingsDue == old(greetingsDue) + 1 && play == old(play)
      ensures !isLiveMode ==>
        && boots == old(boots) && greetingsDue == old(greetingsDue)
        && play == if voiceEnabled
                   then Launch(old(play), ChatPlayback.SpokenChunks(clean("Voice systems standby.")), false, old(play.countSeen))
                   else old(play)
    {
      var on := !isLiveMode;
      StopRecognition();
      if on {
        RunBoot();
      } else {
        isLiveMode := false;
        Speak("Voice systems standby.");
        if OneLive(old(cap)) {
          StoppedNoneLive(Stopped(old(cap)));
        }
      }
    }

    /** The microphone button: while listening it stops capture and leaves live
        mode; otherwise it restarts capture in conversation mode. */
    method ToggleMicButton()
      requires CaptureValid(cap)
      modifies this`cap, this`isListening, this`isWakeWordStandby, this`silence, this`micVolume, this`interim
      modifies this`isLiveMode
      ensures CaptureValid(cap)
      ensures OneLive(old(cap)) ==> OneLive(cap)
      ensures Indicators() == (false, false, None, 0, "")
      ensures old(isListening) ==> cap == Stopped(old(cap)) && !isLiveMode
      ensures !old(isListening) ==>
        isLiveMode == old(isLiveMode)
        && cap == if supported then Started(Stopped(old(cap)), Session(true, Snapshot(isLoading, play.isSpeaking)))
                  else Stopped(old(cap))
    {
      if isListening {
        StopRecognition();
        if isLiveMode {
          isLiveMode := false;
        }
      } else {
        StopRecognition();
        StartRecognition(true, Snapshot(isLoading, play.isSpeaking));
      }
    }

    /** The wake-word setting changes (`isWakeWordEnabledRef` follows it). */
    method SetWakeWord(enabled: bool)
      modifies this`wakeWordEnabled
      ensures wakeWordEnabled == enabled
    {
      wakeWordEnabled := enabled;
    }

    /** An image is read and attached. */
    method Attach()
      modifies this`attached
      ensures attached
    {
      attached := true;
    }
  }

  /** A component with voice and the wake word enabled, after the live-mode
      effect's standby restart has started recogniser 0 and it has reported
      its start. */
  method InStandby() returns (v: VoiceLoop)
    ensures fresh(v) && CaptureValid(v.cap)
    ensures v.cap == Capture(Some(0), map[0 := Session(false, Snapshot(false, false))], {}, 1)
    ensures v.supported && v.wakeWordEnabled && !v.isLiveMode && !v.isProcessing
    ensures !v.isListening && !v.isLoading && !v.play.isSpeaking
  {
    v := new VoiceLoop(true, true, s => s, true);
    v.LiveModeEffect();
    assert v.restart == Some(Armed(false, v.DepsNow()));
    v.RestartFire();
    v.OnStart(0);
  }

  /** A standby recogniser is replaced from the microphone button, and its
      `onend` arrives afterwards: with the `onend` as written, two recognisers
      end up live, the one from the button no longer held by anything. */
  method StaleEndLeavesTwoLive() returns (live: set<nat>)
    ensures |live| == 2
  {
    var v := InStandby();
    var quiet := Snapshot(false, false);
    v.ToggleMicButton();
    assert v.cap.handle == Some(1) && v.cap.running == map[0 := Session(false, quiet), 1 := Session(true, quiet)];
    assert v.cap.stopping == {0} && v.cap.nextId == 2;
    v.OnEnd(0);
    assert v.cap.running == map[1 := Session(true, quiet), 2 := Session(false, quiet)];
    assert v.cap.stopping == {};
    live := Live(v.cap);
    assert live == {1, 2};
  }

  /** The same events with the checked `onend`: the old recogniser's end is
      only noted, and the recogniser from the button is the only live one. */
  method StaleEndChecked() returns (live: set<nat>)
    ensures |live| == 1
  {
    var v := InStandby();
    v.ToggleMicButton();
    v.OnEndChecked(0);
    live := Live(v.cap);
    assert 1 in live;
    OneLiveAtMostOne(v.cap);
  }
}
