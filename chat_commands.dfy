/** Text commands of the chat console (ChatInterface.tsx): the `[[EXEC:CMD|payload]]`
    tags of a model reply (`processResponse`), slash commands
    (`processSlashCommand`) and the routing of a sent line (`handleSend`).

    Side effects on the host (the `onAICommand` and `onUpdateProfile` callbacks,
    `setMessages`, `executeVoiceCount`) are returned as a list of `Effect`s in
    the order the source performs them. */
module ChatCommands {

  import opened Strings
  import opened Types
  import LearningService

  datatype Effect =
    | AICommand(command: string, payload: string)       // onAICommand(command, payload)
    | VoiceCount(target: int)                            // executeVoiceCount(target)
    | Post(message: Message)                             // setMessages(prev => [...prev, message])
    | ReplaceMessages(messages: seq<Message>)            // setMessages([...])
    | ClearMessagesLater                                 // setTimeout(() => setMessages([]), 3000)
    | Profile(action: LearningService.ProfileAction)     // onUpdateProfile(action)

  /** A system line marked as a command result. */
  function SystemNote(content: string): Message {
    Message(System, content, true)
  }

  function UserLine(content: string): Message {
    Message(User, content, false)
  }

  // ---------------------------------------------------------------------------
  // Tags: /\[\[EXEC:(\w+)\|(.*?)\]\]/g

  const EXEC_OPEN: string := "[[EXEC:"

  /** The characters `.` does not match in a JavaScript regular expression. */
  predicate IsLineTerminator(c: char) {
    c == '\n' || c == '\r' || c == 8232 as char || c == 8233 as char
  }

  datatype Tag = Tag(command: string, payload: string, text: string)

  /** Length of the leading run of word characters. */
  function WordRun(s: string): (n: nat)
    ensures n <= |s|
    ensures forall i :: 0 <= i < n ==> IsWordChar(s[i])
    ensures n < |s| ==> !IsWordChar(s[n])
    decreases |s|
  {
    if s != [] && IsWordChar(s[0]) then 1 + WordRun(s[1..]) else 0
  }

  predicate ClosesAt(s: string, i: int) {
    0 <= i && i + 1 < |s| && s[i] == ']' && s[i + 1] == ']'
  }

  /** Where the lazy `(.*?)\]\]` stops: the first "]]", provided no line
      terminator comes before it. */
  function PayloadEnd(s: string): (r: Option<nat>)
    ensures r.Some? ==> ClosesAt(s, r.value)
    ensures r.Some? ==> forall i :: 0 <= i < r.value ==> !ClosesAt(s, i) && !IsLineTerminator(s[i])
    ensures r.None? ==> forall i :: ClosesAt(s, i) ==> exists j :: 0 <= j < i && IsLineTerminator(s[j])
    decreases |s|
  {
    if |s| >= 2 && s[0] == ']' && s[1] == ']' then Some(0)
    else if s == [] || IsLineTerminator(s[0]) then None
    else
      match PayloadEnd(s[1..])
      case None =>
        assert forall i :: ClosesAt(s, i) ==> i >= 1 && ClosesAt(s[1..], i - 1);
        None
      case Some(k) =>
        assert forall i :: 1 <= i <= k ==> (ClosesAt(s, i) <==> ClosesAt(s[1..], i - 1));
        Some(k + 1)
  }

  /** The tag the regular expression matches at the start of `s`, if any. */
  function TagAt(s: string): (r: Option<Tag>)
    ensures r.Some? ==> StartsWith(s, r.value.text)
    ensures r.Some? ==> r.value.text == EXEC_OPEN + r.value.command + "|" + r.value.payload + "]]"
    ensures r.Some? ==> r.value.command != ""
                        && (forall i :: 0 <= i < |r.value.command| ==> IsWordChar(r.value.command[i]))
    ensures r.Some? ==> forall i :: 0 <= i < |r.value.payload| ==> !IsLineTerminator(r.value.payload[i])
  {
    if !StartsWith(s, EXEC_OPEN) then None
    else
      var rest := s[7..];
      var w := WordRun(rest);
      if w == 0 || w == |rest| || rest[w] != '|' then None
      else
        match PayloadEnd(rest[w + 1..])
        case None => None
        case Some(p) =>
          TagTextShape(s, rest, w, p);
          Some(Tag(rest[..w], rest[w + 1..][..p], s[..7 + w + 1 + p + 2]))
  }

  /** The text a tag spans: the opening, the command, the bar, the payload and
      the closing brackets. */
  lemma {:induction false} TagTextShape(s: string, rest: string, w: nat, p: nat)
    requires StartsWith(s, EXEC_OPEN) && rest == s[7..]
    requires w < |rest| && rest[w] == '|' && ClosesAt(rest[w + 1..], p)
    ensures 7 + w + 1 + p + 2 <= |s|
    ensures s[..7 + w + 1 + p + 2] == EXEC_OPEN + rest[..w] + "|" + rest[w + 1..][..p] + "]]"
  {
    assert s[..7 + w + 1 + p + 2] == s[..7] + rest[..w] + [rest[w]] + rest[w + 1..][..p] + rest[w + 1..][p..p + 2];
  }

  /** The text between tags (`gaps`, one more than the tags) and the tags. */
  datatype Scan = Scan(gaps: seq<string>, tags: seq<Tag>)

  /** The successive matches of the global regular expression over `s`. */
  function ScanTags(s: string): (r: Scan)
    ensures |r.gaps| == |r.tags| + 1
    decreases |s|
  {
    if s == [] then Scan([""], [])
    else
      match TagAt(s)
      case Some(t) =>
        var rest := ScanTags(s[|t.text|..]);
        Scan([""] + rest.gaps, [t] + rest.tags)
      case None =>
        var rest := ScanTags(s[1..]);
        Scan([[s[0]] + rest.gaps[0]] + rest.gaps[1..], rest.tags)
  }

  /** The tags and the gaps after them, in order. */
  function Following(gaps: seq<string>, tags: seq<Tag>): string
    requires |gaps| == |tags|
  {
    if tags == [] then "" else tags[0].text + gaps[0] + Following(gaps[1..], tags[1..])
  }

  /** Gaps and tags put back together. */
  function Interleave(sc: Scan): string
    requires |sc.gaps| == |sc.tags| + 1
  {
    sc.gaps[0] + Following(sc.gaps[1..], sc.tags)
  }

  /** The scan loses nothing: gaps and tags put back together are the reply. */
  lemma {:induction false} ScanRoundTrip(s: string)
    ensures Interleave(ScanTags(s)) == s
    decreases |s|
  {
    if s != [] {
      match TagAt(s)
      case Some(t) =>
        var rest := ScanTags(s[|t.text|..]);
        ScanRoundTrip(s[|t.text|..]);
        TagStep(s, t, rest);
      case None =>
        ScanRoundTrip(s[1..]);
        CharStep(s);
    }
  }

  /** A tag spanning the start of `s` is put back in front of what follows it. */
  lemma {:induction false} TagStep(s: string, t: Tag, rest: Scan)
    requires |t.text| <= |s| && s[..|t.text|] == t.text
    requires |rest.gaps| == |rest.tags| + 1 && Interleave(rest) == s[|t.text|..]
    ensures Interleave(Scan([""] + rest.gaps, [t] + rest.tags)) == s
  {
    var r := Scan([""] + rest.gaps, [t] + rest.tags);
    assert r.gaps[1..] == rest.gaps;
    assert ([t] + rest.tags)[1..] == rest.tags;
    assert Following(rest.gaps, [t] + rest.tags)
        == t.text + rest.gaps[0] + Following(rest.gaps[1..], rest.tags);
    assert s == s[..|t.text|] + s[|t.text|..];
  }

  /** A character that starts no tag is put back in front of the first gap. */
  lemma {:induction false} CharStep(s: string)
    requires s != [] && TagAt(s).None?
    requires Interleave(ScanTags(s[1..])) == s[1..]
    ensures Interleave(ScanTags(s)) == s
  {
    var rest := ScanTags(s[1..]);
    assert ScanTags(s) == Scan([[s[0]] + rest.gaps[0]] + rest.gaps[1..], rest.tags);
    assert s == [s[0]] + s[1..];
  }

  /** The effects of one tag (the body of the `while` loop). */
  function TagEffects(t: Tag): seq<Effect> {
    if t.command == "COUNT" then
      match ParseInt(t.payload)
      case None => []
      case Some(n) => [VoiceCount(n)]
    else if t.command == "TIMER" then
      match ParseInt(t.payload)
      case None => []
      case Some(n) => [Post(SystemNote("[[WIDGET:TIMER|" + IntToString(n) + "]]"))]
    else if t.command == "MUSIC" then
      [AICommand("MUSIC", t.payload), Post(SystemNote("[[WIDGET:MUSIC_PLAYER|" + t.payload + "]]"))]
    else
      [AICommand(t.command, t.payload)]
  }

  function EffectsOf(tags: seq<Tag>): seq<Effect> {
    if tags == [] then [] else EffectsOf(tags[..|tags| - 1]) + TagEffects(tags[|tags| - 1])
  }

  /** `processResponse(rawText)`: dispatch every tag in order of appearance and
      return the reply with the tags removed, trimmed. */
  method ProcessResponse(raw: string) returns (text: string, effects: seq<Effect>)
    ensures effects == EffectsOf(ScanTags(raw).tags)
    ensures text == Trim(Concat(ScanTags(raw).gaps))
  {
    var scan := ScanTags(raw);
    var kept;
    kept, effects := Reassemble(scan.gaps, scan.tags);
    text := Trim(kept);
  }

  /** The loop of `processResponse`: each tag is dispatched in turn and the
      text around the tags is kept. */
  method Reassemble(gaps: seq<string>, tags: seq<Tag>) returns (kept: string, effects: seq<Effect>)
    requires |gaps| == |tags| + 1
    ensures effects == EffectsOf(tags)
    ensures kept == Concat(gaps)
  {
    kept := gaps[0];
    effects := [];
    var i := 0;
    assert gaps[..1] == [gaps[0]];
    while i < |tags|
      invariant 0 <= i <= |tags|
      invariant effects == EffectsOf(tags[..i])
      invariant kept == Concat(gaps[..i + 1])
    {
      assert tags[..i + 1][..i] == tags[..i];
      effects := effects + TagEffects(tags[i]);
      ConcatStep(gaps, i + 1);
      kept := kept + gaps[i + 1];
      i := i + 1;
    }
    assert tags[..i] == tags;
    assert gaps[..i + 1] == gaps;
  }

  lemma {:induction false} ConcatStep(parts: seq<string>, n: nat)
    requires n < |parts|
    ensures Concat(parts[..n + 1]) == Concat(parts[..n]) + parts[n]
  {
    ConcatAppend(parts[..n], [parts[n]]);
    assert parts[..n + 1] == parts[..n] + [parts[n]];
    assert Concat([parts[n]]) == parts[n];
  }


  // ---------------------------------------------------------------------------
  // What the dispatch does

  /** The calls to `onAICommand` among the effects, in order. */
  function Forwarded(effects: seq<Effect>): seq<(string, string)> {
    if effects == [] then []
    else
      Forwarded(effects[..|effects| - 1])
      + (match effects[|effects| - 1]
         case AICommand(c, p) => [(c, p)]
         case _ => [])
  }

  /** The tags whose command goes to the host: all but COUNT and TIMER. */
  function HostTags(tags: seq<Tag>): seq<(string, string)> {
    if tags == [] then []
    else
      var t := tags[|tags| - 1];
      HostTags(tags[..|tags| - 1])
      + (if t.command == "COUNT" || t.command == "TIMER" then [] else [(t.command, t.payload)])
  }

  lemma {:induction false} ForwardedAppend(a: seq<Effect>, b: seq<Effect>)
    ensures Forwarded(a + b) == Forwarded(a) + Forwarded(b)
    decreases |b|
  {
    if b == [] {
      assert a + b == a;
    } else {
      ForwardedAppend(a, b[..|b| - 1]);
      assert (a + b)[..|a + b| - 1] == a + b[..|b| - 1];
    }
  }

  lemma {:induction false} TagForwarded(t: Tag)
    ensures Forwarded(TagEffects(t))
         == if t.command == "COUNT" || t.command == "TIMER" then [] else [(t.command, t.payload)]
  {
    var e := TagEffects(t);
    if t.command == "MUSIC" {
      assert e[..1] == [AICommand("MUSIC", t.payload)];
      assert e[..1][..0] == [];
      assert Forwarded(e[..1]) == [("MUSIC", t.payload)];
      assert e[..|e| - 1] == e[..1] && e[1].Post?;
    } else if t.command != "COUNT" && t.command != "TIMER" {
      assert e[..0] == [];
    } else if e != [] {
      assert e[..0] == [];
    }
  }

  /** Every tag other than COUNT and TIMER reaches the host, in the order of
      the reply, with its own payload. */
  lemma {:induction false} DispatchInOrder(tags: seq<Tag>)
    ensures Forwarded(EffectsOf(tags)) == HostTags(tags)
    decreases |tags|
  {
    if tags != [] {
      var init := tags[..|tags| - 1];
      DispatchInOrder(init);
      ForwardedAppend(EffectsOf(init), TagEffects(tags[|tags| - 1]));
      TagForwarded(tags[|tags| - 1]);
    }
  }

  /** COUNT and TIMER tags whose payload is not a number do nothing. */
  lemma {:induction false} NaNIgnored(t: Tag)
    requires t.command == "COUNT" || t.command == "TIMER"
    requires ParseInt(t.payload).None?
    ensures TagEffects(t) == []
  {
  }

  /** A TIMER tag with a number posts exactly one system line, a timer widget
      whose seconds read back as that number. */
  lemma {:induction false} TimerWidget(t: Tag)
    requires t.command == "TIMER" && ParseInt(t.payload).Some?
    ensures |TagEffects(t)| == 1 && TagEffects(t)[0].Post?
    ensures var m := TagEffects(t)[0].message;
            m.role == System && m.isCommandResult
            && exists secs :: m.content == "[[WIDGET:TIMER|" + secs + "]]"
                              && ParseInt(secs) == ParseInt(t.payload)
  {
    var n := ParseInt(t.payload).value;
    ParseIntRoundTrip(n);
    var secs := IntToString(n);
    assert TagEffects(t)[0].message.content == "[[WIDGET:TIMER|" + secs + "]]";
  }

  /** A COUNT tag with a number starts exactly one spoken count to it. */
  lemma {:induction false} CountStarts(t: Tag)
    requires t.command == "COUNT" && ParseInt(t.payload).Some?
    ensures TagEffects(t) == [VoiceCount(ParseInt(t.payload).value)]
  {
  }

  // ---------------------------------------------------------------------------
  // Slash commands

  /** `cmd.toLowerCase().split(' ')[0]`. */
  function Keyword(cmd: string): (r: string)
    ensures ' ' !in r
    ensures StartsWith(Lower(cmd), r)
  {
    var r := Split(Lower(cmd), " ")[0];
    SplitPiecesFree(Lower(cmd), " ");
    PrefixOfSplitHead(Lower(cmd), " ");
    ContainsChar(r, ' ');
    r
  }

  /** The keyword is already lower case. */
  lemma {:induction false} KeywordLower(cmd: string)
    ensures Lower(Keyword(cmd)) == Keyword(cmd)
  {
    var k := Keyword(cmd);
    assert Lower(cmd)[..|k|] == k;
    forall i | 0 <= i < |k| ensures LowerChar(k[i]) == k[i] {
      assert k[i] == LowerChar(cmd[i]);
    }
  }

  /** `customCommands.find(c => c.trigger === keyword)`. */
  function FindTrigger(cmds: seq<CustomCommand>, keyword: string): (r: Option<CustomCommand>)
    ensures r.None? <==> forall i :: 0 <= i < |cmds| ==> cmds[i].trigger != keyword
    ensures r.Some? ==> exists i :: 0 <= i < |cmds| && cmds[i] == r.value
                          && r.value.trigger == keyword
                          && forall j :: 0 <= j < i ==> cmds[j].trigger != keyword
    decreases |cmds|
  {
    if cmds == [] then None
    else if cmds[0].trigger == keyword then Some(cmds[0])
    else
      var r := FindTrigger(cmds[1..], keyword);
      assert forall i :: 1 <= i < |cmds| ==> cmds[i] == cmds[1..][i - 1];
      r
  }

  /** The keywords the built-in `switch` knows. */
  const BUILT_IN_KEYWORDS: seq<string> :=
    ["/help", "/clear", "/scan", "/time", "/hack", "/matrix", "/reboot",
     "/stealth", "/purge", "/override", "/mtracker", "/admin-access"]

  function NotRecognized(keyword: string): Message {
    Message(System, "ERROR: COMMAND '" + keyword + "' NOT RECOGNIZED.", false)
  }

  /** The built-in `switch`; `clock` is `new Date().toLocaleTimeString()`. */
  function BuiltIn(keyword: string, clock: string): seq<Effect> {
    if keyword == "/help" then [Post(SystemNote("[[WIDGET:HELP_TABLE]]"))]
    else if keyword == "/clear" then [ReplaceMessages([Message(System, "BUFFER EMPTY.", false)])]
    else if keyword == "/scan" then [Post(SystemNote("SCAN COMPLETE. SYSTEM NOMINAL."))]
    else if keyword == "/time" then [Post(SystemNote("TIME: " + Upper(clock)))]
    else if keyword == "/hack" then [AICommand("OVERLAY", "HACK_SIMULATION")]
    else if keyword == "/matrix" then [AICommand("OVERLAY", "MATRIX_RAIN"), AICommand("THEME", "GREEN_MATRIX")]
    else if keyword == "/reboot" then [AICommand("OVERLAY", "SYSTEM_REBOOT"), ClearMessagesLater]
    else if keyword == "/stealth" then [AICommand("THEME", "AMOLED_BLACK"), AICommand("SOUND", "OFF")]
    else if keyword == "/purge" then [ReplaceMessages([Message(System, "DATABANKS FLUSHED.", false)])]
    else if keyword == "/override" then [AICommand("SOUND", "ON"), AICommand("THEME", "RED_HACKER")]
    else if keyword == "/mtracker" then [AICommand("NAVIGATE", "M_TRACKER")]
    else if keyword == "/admin-access" then [AICommand("NAVIGATE", "ADMIN_GENESIS")]
    else [Post(NotRecognized(keyword))]
  }

  function CustomEffects(c: CustomCommand): seq<Effect> {
    [AICommand(ActionName(c.action), c.payload),
     Post(SystemNote("EXECUTING CUSTOM PROTOCOL: " + ActionName(c.action) + " -> " + c.payload))]
  }

  /** `processSlashCommand(cmd)`: count the keyword, then run the first custom
      command with that trigger, or else the built-in command. */
  function SlashEffects(cmd: string, cmds: seq<CustomCommand>, clock: string): seq<Effect> {
    var keyword := Keyword(cmd);
    [Profile(LearningService.ProfileAction(LearningService.COMMAND, keyword, []))]
    + match FindTrigger(cmds, keyword)
      case Some(c) => CustomEffects(c)
      case None => BuiltIn(keyword, clock)
  }

  /** A custom command whose trigger is the keyword wins over everything else,
      built-in keywords included; the first such command in the list is run. */
  lemma {:induction false} CustomPrecedence(cmd: string, cmds: seq<CustomCommand>, clock: string, i: nat)
    requires i < |cmds| && cmds[i].trigger == Keyword(cmd)
    requires forall j :: 0 <= j < i ==> cmds[j].trigger != Keyword(cmd)
    ensures SlashEffects(cmd, cmds, clock)
         == [Profile(LearningService.ProfileAction(LearningService.COMMAND, Keyword(cmd), []))]
            + CustomEffects(cmds[i])
  {
    var r := FindTrigger(cmds, Keyword(cmd));
    var k :| 0 <= k < |cmds| && cmds[k] == r.value && r.value.trigger == Keyword(cmd)
             && forall j :: 0 <= j < k ==> cmds[j].trigger != Keyword(cmd);
    assert k == i;
  }

  /** Without a custom command, a keyword the switch does not know yields one
      error line naming it, and a keyword it knows never does. */
  lemma {:induction false} UnknownKeyword(keyword: string, clock: string)
    ensures keyword !in BUILT_IN_KEYWORDS <==> BuiltIn(keyword, clock) == [Post(NotRecognized(keyword))]
  {
  }

  // ---------------------------------------------------------------------------
  // Sending a line

  /** The voice aliases of `handleSend`, in the key order of the object literal. */
  const VOICE_ALIASES: seq<(string, string)> := [
    ("system help", "/help"), ("show commands", "/help"), ("clear chat", "/clear"),
    ("scan system", "/scan"), ("check time", "/time"), ("initiate hack", "/hack"),
    ("enter matrix", "/matrix"), ("system reboot", "/reboot"), ("stealth mode", "/stealth"),
    ("open tracker", "/mtracker")]

  /** The command of the first key, in table order, that `lower` contains. */
  function FirstContained(table: seq<(string, string)>, lower: string): (r: Option<string>)
    ensures r.None? <==> forall i :: 0 <= i < |table| ==> !Contains(lower, table[i].0)
    ensures r.Some? ==> exists i :: 0 <= i < |table| && Contains(lower, table[i].0)
                          && r.value == table[i].1
                          && forall j :: 0 <= j < i ==> !Contains(lower, table[j].0)
    decreases |table|
  {
    if table == [] then None
    else if Contains(lower, table[0].0) then Some(table[0].1)
    else
      var r := FirstContained(table[1..], lower);
      assert forall i :: 1 <= i < |table| ==> table[i] == table[1..][i - 1];
      r
  }

  datatype Route = Ignored | Slash | Alias(command: string) | Ask

  /** Which path `handleSend` takes for a line (and whether an image is
      attached), given the alias table. */
  function RouteBy(aliases: seq<(string, string)>, text: string, hasImage: bool): Route {
    if IsBlank(text) && !hasImage then Ignored
    else if StartsWith(text, "/") then Slash
    else
      match FirstContained(aliases, Lower(text))
      case Some(c) => Alias(c)
      case None => Ask
  }

  function RouteOf(text: string, hasImage: bool): Route {
    RouteBy(VOICE_ALIASES, text, hasImage)
  }

  /** The effects `handleSend` has before any reply arrives.  An alias posts the
      line now; its slash command runs 500 ms later (`SlashEffects` of the
      alias command). */
  function SendEffects(text: string, hasImage: bool, cmds: seq<CustomCommand>, clock: string): seq<Effect> {
    match RouteOf(text, hasImage)
    case Ignored => []
    case Slash => [Post(UserLine(text))] + SlashEffects(text, cmds, clock)
    case Alias(_) => [Post(UserLine(text))]
    case Ask =>
      var topics := LearningService.ExtractTopics(text);
      [Profile(LearningService.ProfileAction(LearningService.INTERACTION, "", []))]
      + (if topics != [] then [Profile(LearningService.ProfileAction(LearningService.TOPIC, "", topics))] else [])
      + [Post(UserLine(text))]
  }

  /** A blank line without an image is dropped; a line starting with '/' is a
      slash command even when it also contains an alias key; otherwise the
      first alias key it contains (case-insensitively) picks the command, and
      a line with none goes to the model. */
  lemma {:induction false} Routing(aliases: seq<(string, string)>, text: string, hasImage: bool)
    ensures RouteBy(aliases, text, hasImage) == Ignored <==> IsBlank(text) && !hasImage
    ensures RouteBy(aliases, text, hasImage) == Slash <==> !(IsBlank(text) && !hasImage) && StartsWith(text, "/")
    ensures RouteBy(aliases, text, hasImage).Alias? ==>
              exists i :: 0 <= i < |aliases| && Contains(Lower(text), aliases[i].0)
                          && RouteBy(aliases, text, hasImage).command == aliases[i].1
                          && forall j :: 0 <= j < i ==> !Contains(Lower(text), aliases[j].0)
    ensures RouteBy(aliases, text, hasImage) == Ask ==>
              forall i :: 0 <= i < |aliases| ==> !Contains(Lower(text), aliases[i].0)
  {
  }
}
