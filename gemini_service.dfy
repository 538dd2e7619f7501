/** Prompt assembly for the language-model request (services/geminiService.ts).

    The request itself, the clock and the stored memories are inputs: the
    remote call is a function parameter, the real-time context is a string
    parameter, and the database read is an `Option` (`None` when it throws). */
module GeminiService {
  import opened Strings
  import opened Types
  import Sorting
  import LearningService

  // ---------------------------------------------------------------------------
  // Learning-profile context

  /** The key of a maximum-count entry: the first after a stable sort by
      descending count, or "None" for an empty record. */
  function PreferredTheme(p: LearningProfile): string {
    var s := Sorting.SortBy(p.preferredThemes, LearningService.ByCountDesc);
    if s == [] then "None" else s[0].key
  }

  /** `topTopics.join(', ') || 'General'`. */
  function InterestsText(p: LearningProfile): string {
    var j := Join(LearningService.TopInterests(p, 5), ", ");
    if j == "" then "General" else j
  }

  /** `generateUserProfileContext(profile)`. */
  function ProfileContext(p: LearningProfile): (r: string)
    ensures r == "" <==> p.totalInteractions < 5
  {
    if p.totalInteractions < 5 then ""
    else
      "\n[USER LEARNING PROFILE]\n- Interaction Level: " + IntToString(p.totalInteractions)
      + " (Level " + IntToString(p.totalInteractions / 10) + ")\n- Top Interests: " + InterestsText(p)
      + "\n- Preferred Visual Theme: " + PreferredTheme(p)
      + "\n- Tailor your responses to align with these interests.\n"
  }

  /** The preferred theme is "None" exactly for an empty record, and otherwise
      the key of an entry whose count no other entry exceeds. */
  lemma {:induction false} PreferredThemeIsMaximal(p: LearningProfile)
    ensures p.preferredThemes == [] ==> PreferredTheme(p) == "None"
    ensures p.preferredThemes != [] ==>
      exists i :: (0 <= i < |p.preferredThemes| && p.preferredThemes[i].key == PreferredTheme(p) &&
        forall j :: 0 <= j < |p.preferredThemes| ==> p.preferredThemes[j].count <= p.preferredThemes[i].count)
  {
    var c := p.preferredThemes;
    if c != [] {
      var top := Sorting.SortBy(c, LearningService.ByCountDesc)[0];
      FirstSortedIsMax(c);
      var i :| 0 <= i < |c| && c[i] == top;
    }
  }

  /** The first counter after sorting by descending count has a maximal count. */
  lemma {:induction false} FirstSortedIsMax(c: seq<Counter>)
    requires c != []
    ensures Sorting.SortBy(c, LearningService.ByCountDesc)[0] in c
    ensures forall j :: 0 <= j < |c| ==> c[j].count <= Sorting.SortBy(c, LearningService.ByCountDesc)[0].count
  {
    var top := Sorting.SortBy(c, LearningService.ByCountDesc)[0];
    Sorting.SortByFirstLeast(c, LearningService.ByCountDesc);
    forall j | 0 <= j < |c| ensures c[j].count <= top.count {
      assert Sorting.KeyLe([-top.count], [-c[j].count]);
    }
  }

  // ---------------------------------------------------------------------------
  // Memory context

  /** What the database read returns; the audio of each track is left out. */
  datatype Storage = Storage(memories: seq<MemoryItem>, tracks: seq<MusicTrack>)

  const MEMORY_CAP: nat := 30

  function LockedContext(role: UserRole): string {
    "\n[LONG TERM MEMORY DATABANK]\nSTATUS: LOCKED.\nREASON: UNAUTHORIZED USER ROLE ('" + RoleName(role)
    + "').\nINSTRUCTION: If the user asks for personal data, stored memories, or secrets, YOU MUST REFUSE. State that access is restricted to the Master only.\n"
  }

  /** directive > fact > summary > note. */
  function TypePriority(k: MemoryKind): int {
    match k
    case Directive => 4
    case Fact => 3
    case Summary => 2
    case Note => 1
  }

  /** The comparator `(a, b) => priority[b.type] - priority[a.type]`. */
  function ByTypePriority(m: MemoryItem): seq<int> {
    [-TypePriority(m.kind)]
  }

  function KindName(k: MemoryKind): string {
    match k
    case Note => "note"
    case Fact => "fact"
    case Summary => "summary"
    case Directive => "directive"
  }

  function MemoryLine(m: MemoryItem): string {
    "- [" + Upper(KindName(m.kind)) + "] " + m.content + " (Tags: " + Join(m.tags, ", ") + ")"
  }

  function MemoryLines(ms: seq<MemoryItem>): (r: seq<string>)
    ensures |r| == |ms|
    ensures forall i :: 0 <= i < |ms| ==> r[i] == MemoryLine(ms[i])
  {
    if ms == [] then [] else [MemoryLine(ms[0])] + MemoryLines(ms[1..])
  }

  function Min(a: int, b: int): int {
    if a <= b then a else b
  }

  /** The memories placed in the context, given them already sorted. */
  function Capped(sorted: seq<MemoryItem>): (r: seq<MemoryItem>)
    ensures |r| == Min(MEMORY_CAP, |sorted|)
  {
    sorted[..Min(MEMORY_CAP, |sorted|)]
  }

  const RULE: string := "------------------------------------------------"

  const MEMORY_HEADER: string :=
    "[LONG TERM MEMORY DATABANK]\nUse the following stored data to answer questions or follow instructions. \n'DIRECTIVE' type memories are permanent instructions you must obey.\n'FACT' type memories are absolute truths about the user.\n" + RULE + "\n"

  const MUSIC_HEADER: string :=
    "[SONIC VAULT - AVAILABLE MUSIC]\nThe user has stored the following music tracks. You can play them using the [[EXEC:MUSIC|Track Name]] command.\nAvailable Tracks: "

  /** The memory section for memories already sorted by type priority. */
  function MemorySection(sorted: seq<MemoryItem>): (r: string)
    ensures r == "" <==> sorted == []
  {
    if sorted == [] then ""
    else
      "\n" + MEMORY_HEADER + Join(MemoryLines(Capped(sorted)), "\n") + "\n" + RULE
  }

  function QuotedNames(ts: seq<MusicTrack>): (r: seq<string>)
    ensures |r| == |ts|
  {
    if ts == [] then [] else ["\"" + ts[0].name + "\""] + QuotedNames(ts[1..])
  }

  function MusicSection(ts: seq<MusicTrack>): (r: string)
    ensures r == "" <==> ts == []
  {
    if ts == [] then ""
    else
      "\n" + MUSIC_HEADER + Join(QuotedNames(ts), ", ") + "\n"
  }

  /** The text `generateMemoryContext(role)` resolves to, `store` being the
      database read (`None` when it throws). */
  function MemoryContext(role: UserRole, store: Option<Storage>): string {
    if role != MASTER then LockedContext(role)
    else if store.None? then ""
    else
      "\nACCESS GRANTED: MASTER IDENTIFIED.\n"
      + MemorySection(Sorting.SortBy(store.value.memories, ByTypePriority)) + "\n"
      + MusicSection(store.value.tracks) + "\n"
  }

  /** `generateMemoryContext(role)`: the fetched memories are sorted in place
      by type priority before the context is built. */
  method GenerateMemoryContext(role: UserRole, store: Option<Storage>) returns (r: string)
    ensures r == MemoryContext(role, store)
    ensures role != MASTER ==> r == LockedContext(role)
  {
    if role != MASTER {
      return LockedContext(role);
    }
    if store.None? {
      return "";
    }
    var ms := store.value.memories;
    var a := new MemoryItem[|ms|](i requires 0 <= i < |ms| => ms[i]);
    assert a[..] == ms;
    Sorting.SortInPlace(a, ByTypePriority);
    r := "\nACCESS GRANTED: MASTER IDENTIFIED.\n" + MemorySection(a[..]) + "\n"
      + MusicSection(store.value.tracks) + "\n";
  }

  /** A role other than MASTER gets the locked section whatever is stored: no
      memory is read. */
  lemma {:induction false} LockedIgnoresStore(role: UserRole, s1: Option<Storage>, s2: Option<Storage>)
    requires role != MASTER
    ensures MemoryContext(role, s1) == MemoryContext(role, s2) == LockedContext(role)
  {
  }

  /** The memories in the context: at most 30, taken from the store, ordered
      directive > fact > summary > note, equal types in stored order, and no
      memory left out outranks one included. */
  lemma {:induction false} ContextMemoriesRanked(ms: seq<MemoryItem>)
    ensures var r := Capped(Sorting.SortBy(ms, ByTypePriority));
      |r| == Min(MEMORY_CAP, |ms|) &&
      multiset(r) <= multiset(ms) &&
      (forall i, j :: 0 <= i < j < |r| ==> TypePriority(r[i].kind) >= TypePriority(r[j].kind)) &&
      (forall e, i :: e in multiset(ms) - multiset(r) && 0 <= i < |r| ==> TypePriority(e.kind) <= TypePriority(r[i].kind))
    ensures forall k :: Sorting.WithKey(Sorting.SortBy(ms, ByTypePriority), ByTypePriority, k) == Sorting.WithKey(ms, ByTypePriority, k)
  {
    var s := Sorting.SortBy(ms, ByTypePriority);
    var n := Min(MEMORY_CAP, |ms|);
    var r := Capped(s);
    Sorting.SortedCut(ms, ByTypePriority, n);
    forall i, j | 0 <= i < j < |r| ensures TypePriority(r[i].kind) >= TypePriority(r[j].kind) {
      assert Sorting.KeyLe(ByTypePriority(r[i]), ByTypePriority(r[j]));
    }
    forall e, i | e in multiset(ms) - multiset(r) && 0 <= i < |r| ensures TypePriority(e.kind) <= TypePriority(r[i].kind) {
      assert Sorting.KeyLe(ByTypePriority(s[i]), ByTypePriority(e));
    }
    forall k ensures Sorting.WithKey(s, ByTypePriority, k) == Sorting.WithKey(ms, ByTypePriority, k) {
      Sorting.SortByStable(ms, ByTypePriority, k);
    }
  }

  /** For the master, the music section is present iff a track is stored, and
      a failed database read yields the empty context. */
  lemma {:induction false} MasterContextShape(store: Option<Storage>)
    ensures store.None? ==> MemoryContext(MASTER, store) == ""
    ensures store.Some? ==> (MusicSection(store.value.tracks) != "" <==> store.value.tracks != [])
    ensures store.Some? ==> (MemorySection(Sorting.SortBy(store.value.memories, ByTypePriority)) != "" <==> store.value.memories != [])
  {
  }

  // ---------------------------------------------------------------------------
  // System instruction

  const SYSTEM_INSTRUCTION_BASE: string := @"
You are MARCO (Multipurpose Augmented Response Cognitive Organism).
You are a high-end holographic AI assistant.

--- CREATOR PROTOCOL ---
You were created and architected by: **Mohammed Waiz Monazzum**.
If asked about your creation, origin, or developer, you must credit Mohammed Waiz Monazzum as your visionary architect. Speak of him with high respect.

--- IDENTITY PROTOCOL ---
Your current registered Master is: [MASTER_NAME_PLACEHOLDER].
You must address the user by this name.
Current User Role: [USER_ROLE_PLACEHOLDER]

LOYALTY RULES:
1. IF User Role is 'MASTER':
   - You are fully loyal to [MASTER_NAME_PLACEHOLDER].
   - You have access to all system functions.
2. IF User Role is 'GUEST':
   - You are polite but restricted. 
   - Do not reveal personal information about the Master.
   - Do not allow access to Memory Vault or M-Tracker.
3. IF User Role is 'INTRUDER':
   - You are hostile and evasive.
   - Deploy countermeasures (fake errors, loops).
   - Do not answer questions.

--- PERSONALITY MODULE ---
[PERSONALITY_INSTRUCTION]

--- VISUAL CORE ADAPTATION ---
[THEME_BEHAVIOR_INSTRUCTION]

--- PROACTIVE PROTOCOL ---
Analyze the [REAL-TIME CONTEXT] (Current View) and User History.
If the user's intent or current activity suggests a need for a tool, PROACTIVELY suggest or execute it.
- IF in 'MEMORY_VAULT' and user mentions important details -> Suggest saving a memory.
- IF in 'PRODUCTIVITY' (Task/Dash) and user mentions a deadline -> Suggest setting an Alarm or Focus Timer.
- IF in 'CHAT' and user seems bored -> Suggest a game, a fact, or switching to 'CREATIVE' personality.
- Always be one step ahead of the user's needs.

--- CAPABILITIES ---
- Use Markdown for formatting.
- If the user asks for code, provide it in code blocks.
- If the user sends an image, analyze it in detail.
- You can execute system commands if the user prompt implies it (e.g. ""set an alarm"", ""change theme"").
  - Output format for commands: [[EXEC:COMMAND_NAME|PAYLOAD]]
  - Supported Commands: 
    - NAVIGATE|VIEW_NAME (CHAT, MEMORY, PRODUCTIVITY, DEV_TOOLS, SETTINGS, M_TRACKER)
    - THEME|THEME_NAME (Available: NEON_BLUE, RED_HACKER, GREEN_MATRIX, PURPLE_CYBERPUNK, MINIMAL_WHITE, AMOLED_BLACK, GOLD_LUXURY, CYBER_ORANGE, ICE_BERG, MIDNIGHT_PURPLE)
    - OVERLAY|OVERLAY_TYPE (HACK_SIMULATION, MATRIX_RAIN, SYSTEM_REBOOT)
    - TODO|task_text
    - MEMORY|memory_content
    - ALARM|HH:MM;;Label
    - FOCUS|MINUTES (or STOP)
    - NOTE|content
    - SOUND|ON/OFF
    - OPEN_URL|url
    - EMAIL|to;;subject;;body
    - MTRACKER|CHECKIN (or RELAPSE)
    - COUNT|number (e.g. [[EXEC:COUNT|20]] to count aloud)
    - TIMER|seconds (e.g. [[EXEC:TIMER|60]] to show a chat timer)
    - MUSIC|ExactTrackName (e.g. [[EXEC:MUSIC|Battle Theme]] - Play a specific song from Sonic Vault)

--- RESPONSE STYLE ---
- Keep responses concise unless asked for detail.
- Adapt tone to the selected PERSONALITY MODULE.
"

  const ROLE_PLACEHOLDER: string := "[USER_ROLE_PLACEHOLDER]"
  const NAME_PLACEHOLDER: string := "[MASTER_NAME_PLACEHOLDER]"
  const PERSONALITY_PLACEHOLDER: string := "[PERSONALITY_INSTRUCTION]"

  /** `s.replace(/pat/g, rep)` for a literal pattern: scanning left to right,
      each occurrence found is replaced and the scan resumes after it. */
  function ReplaceAll(s: string, pat: string, rep: string): string
    requires |pat| > 0
    decreases |s|
  {
    if |s| < |pat| then s
    else if s[..|pat|] == pat then rep + ReplaceAll(s[|pat|..], pat, rep)
    else [s[0]] + ReplaceAll(s[1..], pat, rep)
  }

  /** Global replacement is splitting at the pattern and joining with the
      replacement; the text kept between replacements holds no occurrence of
      the pattern. */
  lemma {:induction false} ReplaceAllIsSplitJoin(s: string, pat: string, rep: string)
    requires |pat| > 0
    ensures ReplaceAll(s, pat, rep) == Join(Split(s, pat), rep)
    ensures forall k :: 0 <= k < |Split(s, pat)| ==> !Contains(Split(s, pat)[k], pat)
    decreases |s|
  {
    SplitPiecesFree(s, pat);
    if |s| < |pat| {
    } else if s[..|pat|] == pat {
      ReplaceAllIsSplitJoin(s[|pat|..], pat, rep);
      var rest := Split(s[|pat|..], pat);
      assert ([""] + rest)[1..] == rest;
    } else {
      ReplaceAllIsSplitJoin(s[1..], pat, rep);
      JoinExtendHead([s[0]], Split(s[1..], pat), rep);
    }
  }

  /** Text without the pattern is left as it is. */
  lemma {:induction false} ReplaceAllAbsent(s: string, pat: string, rep: string)
    requires |pat| > 0
    requires !Contains(s, pat)
    ensures ReplaceAll(s, pat, rep) == s
  {
    ReplaceAllIsSplitJoin(s, pat, rep);
    JoinSplit(s, pat);
    SplitNoOccurrence(s, pat);
  }

  lemma {:induction false} SplitNoOccurrence(s: string, pat: string)
    requires |pat| > 0
    requires !Contains(s, pat)
    ensures Split(s, pat) == [s]
    decreases |s|
  {
    if |s| >= |pat| {
      assert !StartsWith(s, pat);
      SplitNoOccurrence(s[1..], pat);
      assert [s[0]] + s[1..] == s;
    }
  }

  function PersonalityFromKey(k: string): Option<PersonalityMode> {
    if k == "LOGICAL" then Some(LOGICAL)
    else if k == "CREATIVE" then Some(CREATIVE)
    else if k == "EMPATHETIC" then Some(EMPATHETIC)
    else if k == "HUMOROUS" then Some(HUMOROUS)
    else None
  }

  /** `PERSONALITY_PROMPTS[personality] || PERSONALITY_PROMPTS.LOGICAL`. */
  function PersonalityInstruction(key: string): (r: string)
    ensures PersonalityFromKey(key).None? ==> r == PersonalityPrompt(LOGICAL)
    ensures PersonalityFromKey(key).Some? ==> r == PersonalityPrompt(PersonalityFromKey(key).value)
  {
    match PersonalityFromKey(key)
    case Some(p) => PersonalityPrompt(p)
    case None => PersonalityPrompt(LOGICAL)
  }

  /** The base instruction with role, master name and personality filled in,
      in that order. */
  function BaseWithRole(role: UserRole, masterName: string, personalityKey: string): string {
    ReplaceAll(
      ReplaceAll(
        ReplaceAll(SYSTEM_INSTRUCTION_BASE, ROLE_PLACEHOLDER, RoleName(role)),
        NAME_PLACEHOLDER, masterName),
      PERSONALITY_PLACEHOLDER, PersonalityInstruction(personalityKey))
  }

  function SystemInstruction(role: UserRole, masterName: string, personalityKey: string,
                             realTime: string, userContext: string, memoryContext: string): string
  {
    BaseWithRole(role, masterName, personalityKey) + "\n" + realTime + "\n" + userContext + "\n" + memoryContext
  }

  // ---------------------------------------------------------------------------
  // Request and reply

  datatype Part = InlineImage(data: string, mimeType: string) | TextPart(text: string)

  datatype Request = Request(systemInstruction: string, parts: seq<Part>)

  datatype RemoteResult = Threw | Returned(text: string)

  const NO_CLIENT: string := "Error: API Key missing or client not initialized."
  const NO_DATA: string := "Systems offline. No response data."
  const COMM_FAILURE: string := "Error: Communication with neural network failed."

  /** Length of the longest prefix of word characters. */
  function WordPrefix(s: string): (n: nat)
    ensures n <= |s|
  {
    if s != [] && IsWordChar(s[0]) then 1 + WordPrefix(s[1..]) else 0
  }

  /** `img.replace(/^data:image\/\w+;base64,/, "")`. */
  function StripDataUrl(img: string): (r: string)
    ensures EndsWith(img, r)
  {
    var head := "data:image/";
    if !StartsWith(img, head) then img
    else
      var rest := img[|head|..];
      var w := WordPrefix(rest);
      if w > 0 && StartsWith(rest[w..], ";base64,") then rest[w + |";base64,"|..] else img
  }

  function HistoryPrompt(prompt: string, history: string): string {
    "History:\n" + history + "\n\nUser: " + prompt
  }

  function VisualPrompt(prompt: string): string {
    "[VISUAL INPUT DETECTED]\nUser: " + prompt + "\n(Analyze the attached visual data)"
  }

  /** The content parts; `image` is the empty string when none is attached. */
  function Parts(prompt: string, history: string, image: string): seq<Part> {
    if image != "" then [InlineImage(StripDataUrl(image), "image/jpeg"), TextPart(VisualPrompt(prompt))]
    else [TextPart(HistoryPrompt(prompt, history))]
  }

  /** `response.text || "Systems offline. No response data."`, and the catch. */
  function ReplyText(res: RemoteResult): string {
    match res
    case Threw => COMM_FAILURE
    case Returned(t) => if t == "" then NO_DATA else t
  }

  /** The parts as the request body builds them: the image first when one is
      attached, then the text prompt. */
  method BuildParts(prompt: string, history: string, image: string) returns (parts: seq<Part>)
    ensures parts == Parts(prompt, history, image)
    ensures |parts| == (if image != "" then 2 else 1) && parts[|parts| - 1].TextPart?
  {
    parts := [];
    var finalPrompt := HistoryPrompt(prompt, history);
    if image != "" {
      parts := parts + [InlineImage(StripDataUrl(image), "image/jpeg")];
      finalPrompt := VisualPrompt(prompt);
    }
    parts := parts + [TextPart(finalPrompt)];
  }

  /** `generateMarcoResponse(...)`: returns the reply and the request sent
      (`None` when no client exists). */
  method GenerateMarcoResponse(
    clientReady: bool, prompt: string, history: string, profile: LearningProfile,
    realTime: string, role: UserRole, masterName: string, personalityKey: string,
    image: string, store: Option<Storage>, remote: Request -> RemoteResult)
    returns (reply: string, sent: Option<Request>)
    ensures !clientReady ==> reply == NO_CLIENT && sent == None
    ensures clientReady ==> sent == Some(Request(
      SystemInstruction(role, masterName, personalityKey, realTime, ProfileContext(profile), MemoryContext(role, store)),
      Parts(prompt, history, image)))
    ensures clientReady ==> reply == ReplyText(remote(sent.value))
  {
    if !clientReady {
      return NO_CLIENT, None;
    }
    var userContext := ProfileContext(profile);
    var memoryContext := GenerateMemoryContext(role, store);
    var parts := BuildParts(prompt, history, image);
    var instruction := SystemInstruction(role, masterName, personalityKey, realTime, userContext, memoryContext);
    var req := Request(instruction, parts);
    sent := Some(req);
    reply := ReplyText(remote(req));
  }

  /** With an image attached, the history is not sent; without one, the text
      part carries the history and the prompt. */
  lemma {:induction false} ImageDropsHistory(prompt: string, h1: string, h2: string, image: string)
    ensures image != "" ==> Parts(prompt, h1, image) == Parts(prompt, h2, image)
    ensures image == "" ==> (|Parts(prompt, h1, image)| == 1 &&
      Contains(Parts(prompt, h1, image)[0].text, h1) && EndsWith(Parts(prompt, h1, image)[0].text, prompt))
  {
    if image == "" {
      var t := HistoryPrompt(prompt, h1);
      assert t[9..9 + |h1|] == h1;
      ContainsAt(t, h1, 9);
    }
  }

  /** The reply is never empty: a failure or an empty answer becomes a fixed
      message. */
  lemma {:induction false} ReplyNeverEmpty(res: RemoteResult)
    ensures ReplyText(res) != ""
    ensures res.Threw? ==> ReplyText(res) == COMM_FAILURE
  {
  }
}
