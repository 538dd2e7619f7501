/** The security gate (components/SecurityGate.tsx): the credential test run
    at the end of a scan, the scan itself, and the state machine of status
    and input method driven by the text form, the voice session and the
    delayed callbacks.

    Timers become explicit events: the scan interval runs to completion
    inside `ValidateCredentials`, and each `setTimeout` callback is queued in
    `pending` until `FireTimer` runs it.  The profile is the component's
    `masterProfile` property. */
module SecurityGate {
  import opened Strings
  import opened Types

  datatype Status = IDLE | LISTENING | SCANNING | ACCESS_GRANTED | ACCESS_DENIED

  datatype AuthMethod = TEXT | VOICE

  /** A callback scheduled with `setTimeout`: `onAuthenticate('MASTER')`
      after a grant, or the return to the idle text form after a denial. */
  datatype Timer = AuthenticateMaster | ReturnToIdle

  // ---------------------------------------------------------------------------
  // Credentials

  /** `finalizeLogin`'s test on the lower-cased, trimmed input: it contains
      the voice phrase, equals the PIN, equals the name, or contains
      "i am <name>" (phrase and name lower-cased). */
  predicate Matches(p: MasterProfile, input: string) {
    var lower := Trim(Lower(input));
    Contains(lower, Lower(p.voicePhrase)) || lower == p.pin || lower == Lower(p.name) ||
    Contains(lower, "i am " + Lower(p.name))
  }

  /** An empty voice phrase is contained in every input, so it lets anyone in. */
  lemma {:induction false} EmptyPhraseGrantsAll(p: MasterProfile, input: string)
    requires p.voicePhrase == ""
    ensures Matches(p, input)
  {
    ContainsEmpty(Trim(Lower(input)));
  }

  /** The test ignores surrounding whitespace and the case of letters. */
  lemma {:induction false} MatchesNormalised(p: MasterProfile, w1: string, input: string, w2: string)
    requires AllSpace(w1) && AllSpace(w2)
    ensures Matches(p, w1 + input + w2) == Matches(p, input)
    ensures Matches(p, Upper(input)) == Matches(p, input)
    ensures Matches(p, Lower(input)) == Matches(p, input)
  {
    assert Trim(Lower(w1 + input + w2)) == Trim(Lower(input)) by {
      TrimLower(w1 + input + w2);
      TrimPadded(w1, input, w2);
      TrimLower(input);
    }
    LowerUpper(input);
    LowerIdempotent(input);
  }

  /** Typing the PIN, when it is made of digits, grants access. */
  lemma {:induction false} PinGrants(p: MasterProfile)
    requires forall i :: 0 <= i < |p.pin| ==> IsDigit(p.pin[i])
    ensures Matches(p, p.pin)
  {
    assert Lower(p.pin) == p.pin;
    if p.pin != [] {
      TrimNoSpaceEnds(p.pin);
    }
  }

  /** Saying or typing "I am <name>" grants access, for a name with no
      surrounding whitespace. */
  lemma {:induction false} IdentityGrants(p: MasterProfile)
    requires p.name != "" && !IsSpace(p.name[0]) && !IsSpace(p.name[|p.name| - 1])
    ensures Matches(p, "I am " + p.name)
  {
    var s := "I am " + p.name;
    var l := Lower(s);
    assert l == "i am " + Lower(p.name) by { LowerAppend("I am ", p.name); }
    SpaceLowerChar(s[0]);
    SpaceLowerChar(s[|s| - 1]);
    TrimNoSpaceEnds(l);
    ContainsSelf(l);
  }

  /** The status and callback a finished scan of `input` leads to. */
  function Verdict(p: MasterProfile, input: string): (r: (Status, Timer))
    ensures r.0 == ACCESS_GRANTED <==> Matches(p, input)
    ensures r.0 == ACCESS_GRANTED <==> r.1 == AuthenticateMaster
    ensures r.0 == ACCESS_GRANTED || r.0 == ACCESS_DENIED
  {
    if Matches(p, input) then (ACCESS_GRANTED, AuthenticateMaster) else (ACCESS_DENIED, ReturnToIdle)
  }

  /** The progress values the scan interval shows, one per tick: 5, 10, ... */
  function ScanSteps(n: nat): (r: seq<int>)
    ensures |r| == n
    ensures forall i :: 0 <= i < n ==> r[i] == 5 * (i + 1)
  {
    seq(n, i requires 0 <= i < n => 5 * (i + 1))
  }

  /** The scan shows progress rising by 5 from 5 and reaches 100 at its last
      tick only. */
  lemma {:induction false} ScanReachesHundredOnce()
    ensures var s := [0] + ScanSteps(20);
      s[|s| - 1] == 100 &&
      (forall i :: 0 <= i < |s| - 1 ==> s[i] < 100 && s[i + 1] == s[i] + 5)
  {
    var s := [0] + ScanSteps(20);
    forall i | 0 <= i < |s| - 1 ensures s[i] < 100 && s[i + 1] == s[i] + 5 {
      if i > 0 {
        assert s[i] == 5 * i;
      }
      assert s[i + 1] == 5 * (i + 1);
    }
  }

  // ---------------------------------------------------------------------------
  // The voice session's end handler

  /** `onend` as written: it tests the status captured when the session was
      created, not the current one, and returns the status to IDLE only when
      that captured status was LISTENING. */
  function EndStatusAsWritten(captured: Status, current: Status): Status {
    if captured == LISTENING then IDLE else current
  }

  /** `onend` as intended ("reset if no result"): a session that ends while
      the gate is still listening returns it to IDLE. */
  function EndStatus(current: Status): (r: Status)
    ensures r != LISTENING
    ensures current != LISTENING ==> r == current
  {
    if current == LISTENING then IDLE else current
  }

  /** A voice scan started from the idle form captures IDLE, so a session
      that ends without a result leaves the gate listening for ever. */
  lemma {:induction false} StaleEndKeepsListening()
    ensures EndStatusAsWritten(IDLE, LISTENING) == LISTENING
    ensures EndStatus(LISTENING) == IDLE
  {
  }

  // ---------------------------------------------------------------------------
  // The gate

  /** `SecurityGate`'s state.  Each method's `modifies` clause names the fields its handler
      sets; every other field keeps its value. */
  class Gate {
    const profile: MasterProfile
    var passcode: string
    var status: Status
    var scanProgress: int
    var authMethod: AuthMethod
    /** Callbacks scheduled and not yet run, in scheduling order. */
    var pending: seq<Timer>
    /** The roles passed to `onAuthenticate`, in order. */
    var authenticated: seq<UserRole>
    /** The status captured by the open voice session's `onend`, if any. */
    var voiceSession: Option<Status>
    /** Every value passed to `setScanProgress`, in order. */
    ghost var progressShown: seq<int>
    /** Every input `finalizeLogin` ran on, in order. */
    ghost var finalized: seq<string>

    constructor (p: MasterProfile)
      ensures profile == p && passcode == "" && status == IDLE && scanProgress == 0
      ensures authMethod == TEXT && pending == [] && authenticated == [] && voiceSession == None
      ensures progressShown == [] && finalized == []
    {
      profile := p;
      passcode := "";
      status := IDLE;
      scanProgress := 0;
      authMethod := TEXT;
      pending := [];
      authenticated := [];
      voiceSession := None;
      progressShown := [];
      finalized := [];
    }

    /** The passcode field's `onChange`. */
    method TypePasscode(text: string)
      modifies this`passcode
      ensures passcode == text
      ensures status == old(status) && pending == old(pending) && finalized == old(finalized)
    {
      passcode := text;
    }

    /** The PIN PAD button. */
    method ChooseText()
      modifies this`authMethod
      ensures authMethod == TEXT && status == old(status) && passcode == old(passcode)
    {
      authMethod := TEXT;
    }

    /** `handleTextLogin()`: a blank passcode starts nothing; any other is
        scanned and judged. */
    method TextLogin()
      modifies this`status, this`scanProgress, this`progressShown, this`pending, this`passcode, this`finalized
      ensures IsBlank(old(passcode)) ==>
        status == old(status) && pending == old(pending) && finalized == old(finalized) &&
        progressShown == old(progressShown) && passcode == old(passcode)
      ensures !IsBlank(old(passcode)) ==>
        finalized == old(finalized) + [old(passcode)] &&
        status == Verdict(profile, old(passcode)).0 &&
        pending == old(pending) + [Verdict(profile, old(passcode)).1]
    {
      if IsBlank(passcode) {
        return;
      }
      ValidateCredentials(passcode);
    }

    /** The scan of `validateCredentials`: the bar climbs from 0 to 100 in
        steps of 5, one step per timer tick. */
    method RunScan()
      modifies this`status, this`scanProgress, this`progressShown
      ensures scanProgress == 100
      ensures progressShown == old(progressShown) + [0] + ScanSteps(20)
    {
      status := SCANNING;
      scanProgress := 0;
      progressShown := progressShown + [0];
      ghost var shown := progressShown;
      var p := 0;
      while p < 100
        invariant 0 <= p <= 100 && p % 5 == 0
        invariant scanProgress == p
        invariant progressShown == shown + ScanSteps(p / 5)
      {
        p := p + 5;
        scanProgress := p;
        assert ScanSteps(p / 5) == ScanSteps((p - 5) / 5) + [p];
        progressShown := progressShown + [p];
      }
    }

    /** `validateCredentials(input)`: the scan interval adds 5 to the
        progress on each tick, and on the tick that reaches 100 it stops and
        runs `finalizeLogin(input)`. */
    method ValidateCredentials(input: string)
      modifies this`status, this`scanProgress, this`progressShown, this`pending, this`passcode, this`finalized
      ensures scanProgress == 100
      ensures progressShown == old(progressShown) + [0] + ScanSteps(20)
      ensures finalized == old(finalized) + [input]
      ensures status == Verdict(profile, input).0
      ensures pending == old(pending) + [Verdict(profile, input).1]
      ensures passcode == if Matches(profile, input) then old(passcode) else ""
      ensures authMethod == old(authMethod) && authenticated == old(authenticated)
      ensures voiceSession == old(voiceSession)
    {
      RunScan();
      FinalizeLogin(input);
    }

    /** `finalizeLogin(input)`: a match grants access and schedules
        `onAuthenticate('MASTER')`; anything else denies it, clears the
        passcode and schedules the return to the idle form. */
    method FinalizeLogin(input: string)
      modifies this`status, this`pending, this`passcode, this`finalized
      ensures status == Verdict(profile, input).0
      ensures pending == old(pending) + [Verdict(profile, input).1]
      ensures passcode == if Matches(profile, input) then old(passcode) else ""
      ensures finalized == old(finalized) + [input]
      ensures scanProgress == old(scanProgress) && progressShown == old(progressShown)
      ensures authMethod == old(authMethod) && authenticated == old(authenticated)
      ensures voiceSession == old(voiceSession)
    {
      if Matches(profile, input) {
        status := ACCESS_GRANTED;
        pending := pending + [AuthenticateMaster];
      } else {
        status := ACCESS_DENIED;
        passcode := "";
        pending := pending + [ReturnToIdle];
      }
      finalized := finalized + [input];
    }

    /** The pending callback at index `i` runs and leaves the queue. */
    method FireTimer(i: nat)
      requires i < |pending|
      modifies this`pending, this`authenticated, this`status, this`authMethod
      ensures pending == old(pending[..i] + pending[i + 1..])
      ensures old(pending[i]) == AuthenticateMaster ==>
        authenticated == old(authenticated) + [MASTER] && status == old(status) && authMethod == old(authMethod)
      ensures old(pending[i]) == ReturnToIdle ==>
        authenticated == old(authenticated) && status == IDLE && authMethod == TEXT
      ensures passcode == old(passcode) && finalized == old(finalized)
    {
      var t := pending[i];
      pending := pending[..i] + pending[i + 1..];
      match t
      case AuthenticateMaster =>
        authenticated := authenticated + [MASTER];
      case ReturnToIdle =>
        status := IDLE;
        authMethod := TEXT;
    }

    /** `startVoiceAuth()`: without speech recognition nothing changes;
        otherwise the gate listens by voice, and the new session's `onend`
        captures the status of the moment. */
    method StartVoiceAuth(supported: bool)
      modifies this`voiceSession, this`authMethod, this`status
      ensures !supported ==> status == old(status) && authMethod == old(authMethod) && voiceSession == old(voiceSession)
      ensures supported ==> status == LISTENING && authMethod == VOICE && voiceSession == Some(old(status))
      ensures passcode == old(passcode) && pending == old(pending)
    {
      if !supported {
        return;
      }
      voiceSession := Some(status);
      authMethod := VOICE;
      status := LISTENING;
    }

    /** `onresult`: the first transcript becomes the passcode and is
        scanned and judged. */
    method VoiceResult(transcript: string)
      modifies this`status, this`scanProgress, this`progressShown, this`pending, this`passcode, this`finalized
      ensures finalized == old(finalized) + [transcript]
      ensures status == Verdict(profile, transcript).0
      ensures pending == old(pending) + [Verdict(profile, transcript).1]
      ensures passcode == if Matches(profile, transcript) then transcript else ""
    {
      passcode := transcript;
      ValidateCredentials(transcript);
    }

    /** `onerror`: back to the idle text form. */
    method VoiceError()
      modifies this`status, this`authMethod
      ensures status == IDLE && authMethod == TEXT
      ensures passcode == old(passcode) && pending == old(pending)
    {
      status := IDLE;
      authMethod := TEXT;
    }

    /** `onend`, as written: the session closes, and the status returns to
        IDLE only when the status captured at its start was LISTENING. */
    method VoiceEnd()
      modifies this`status, this`voiceSession
      ensures voiceSession == None
      ensures old(voiceSession).Some? ==> status == EndStatusAsWritten(old(voiceSession).value, old(status))
      ensures old(voiceSession).None? ==> status == old(status)
      ensures authMethod == old(authMethod) && passcode == old(passcode) && pending == old(pending)
    {
      if voiceSession.Some? {
        status := EndStatusAsWritten(voiceSession.value, status);
      }
      voiceSession := None;
    }

    /** `onend`, corrected: the session closes, and a gate still listening
        returns to IDLE. */
    method VoiceEndChecked()
      modifies this`status, this`voiceSession
      ensures voiceSession == None
      ensures old(voiceSession).Some? ==> status == EndStatus(old(status)) && status != LISTENING
      ensures old(voiceSession).None? ==> status == old(status)
      ensures authMethod == old(authMethod) && passcode == old(passcode) && pending == old(pending)
    {
      if voiceSession.Some? {
        status := EndStatus(status);
      }
      voiceSession := None;
    }
  }

  /** Starting a voice scan from the idle form and ending the session
      without a result leaves the gate listening, where the intended handler
      would have returned it to IDLE. */
  method NoResultScenario(p: MasterProfile) returns (g: Gate)
    ensures g.status == LISTENING && g.voiceSession == None
    ensures EndStatus(LISTENING) == IDLE
  {
    g := new Gate(p);
    g.StartVoiceAuth(true);
    g.VoiceEnd();
  }

  /** With the corrected handler, the same session returns the gate to IDLE. */
  method NoResultScenarioChecked(p: MasterProfile) returns (g: Gate)
    ensures g.status == IDLE && g.voiceSession == None && g.authMethod == VOICE
  {
    g := new Gate(p);
    g.StartVoiceAuth(true);
    g.VoiceEndChecked();
  }
}
