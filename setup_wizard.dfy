/** The first-run setup wizard (components/SetupWizard.tsx): four steps
    (name, PIN, voice phrase, sync), the PIN field's filter, the guards on
    the Next buttons, the sync interval and the profile handed to
    `onComplete`.

    The sync interval runs to completion inside `Finish`; the one-second
    `setTimeout` before `onComplete` is queued in `scheduled` and run by
    `FireComplete`.  The clock reading `Date.now()` is a parameter. */
module SetupWizard {
  import opened Strings
  import opened Types

  const PIN_MAX_LENGTH: nat := 6
  const PIN_MIN_LENGTH: nat := 4

  /** The decimal digits of `s`, in order (`s.replace(/\D/g, '')`). */
  function KeepDigits(s: string): (r: string)
    ensures |r| <= |s|
    ensures forall i :: 0 <= i < |r| ==> IsDigit(r[i])
    ensures SubsequenceOf(r, s)
  {
    if s == [] then []
    else if IsDigit(s[0]) then [s[0]] + KeepDigits(s[1..])
    else KeepDigits(s[1..])
  }

  /** A string of digits passes the filter unchanged. */
  lemma {:induction false} KeepDigitsOfDigits(s: string)
    requires forall i :: 0 <= i < |s| ==> IsDigit(s[i])
    ensures KeepDigits(s) == s
    decreases |s|
  {
    if s != [] {
      KeepDigitsOfDigits(s[1..]);
      assert [s[0]] + s[1..] == s;
    }
  }

  /** The filter keeps every digit: each digit of `s` is counted in the result. */
  lemma {:induction false} KeepDigitsCount(s: string, c: char)
    requires IsDigit(c)
    ensures CountChar(KeepDigits(s), c) == CountChar(s, c)
    decreases |s|
  {
    if s != [] {
      KeepDigitsCount(s[1..], c);
      if IsDigit(s[0]) {
        assert ([s[0]] + KeepDigits(s[1..]))[1..] == KeepDigits(s[1..]);
      }
    }
  }

  /** The PIN field after an edit: the browser keeps at most six characters
      (`maxLength={6}`) and `onChange` keeps their digits. */
  function PinField(raw: string): (r: string)
    ensures |r| <= PIN_MAX_LENGTH
    ensures forall i :: 0 <= i < |r| ==> IsDigit(r[i])
  {
    KeepDigits(if |raw| <= PIN_MAX_LENGTH then raw else raw[..PIN_MAX_LENGTH])
  }

  /** The profile built when the sync completes: empty name and PIN fall
      back to "Master" and "0000", the phrase is upper-cased and the license
      key passes through. */
  function FinalProfile(name: string, pin: string, voicePhrase: string, licenseKey: string, now: int): (r: MasterProfile)
    ensures r.isRegistered && r.licenseKey == licenseKey && r.registeredAt == now
    ensures r.name == (if name == "" then "Master" else name) && r.name != ""
    ensures r.pin == (if pin == "" then "0000" else pin) && r.pin != ""
    ensures NoLower(r.voicePhrase) && |r.voicePhrase| == |voicePhrase|
  {
    MasterProfile(true, if name == "" then "Master" else name, Upper(voicePhrase),
      if pin == "" then "0000" else pin, licenseKey, now)
  }

  /** A profile built from a PIN the field accepted holds only digits. */
  lemma {:induction false} FinalPinDigits(name: string, raw: string, voicePhrase: string, licenseKey: string, now: int)
    ensures forall i :: 0 <= i < |FinalProfile(name, PinField(raw), voicePhrase, licenseKey, now).pin| ==>
      IsDigit(FinalProfile(name, PinField(raw), voicePhrase, licenseKey, now).pin[i])
  {
    var pin := PinField(raw);
    var r := FinalProfile(name, pin, voicePhrase, licenseKey, now);
    if pin == "" {
      assert r.pin == "0000";
    }
  }

  /** The sync progress values shown, one per tick: 2, 4, ... */
  function SyncSteps(n: nat): (r: seq<int>)
    ensures |r| == n
    ensures forall i :: 0 <= i < n ==> r[i] == 2 * (i + 1)
  {
    seq(n, i requires 0 <= i < n => 2 * (i + 1))
  }

  /** The sync shows progress rising by 2 and reaches 100 at its last tick
      only. */
  lemma {:induction false} SyncReachesHundredOnce()
    ensures var s := SyncSteps(50);
      s[49] == 100 && s[0] == 2 &&
      (forall i :: 0 <= i < 49 ==> s[i] < 100 && s[i + 1] == s[i] + 2)
  {
    var s := SyncSteps(50);
    forall i | 0 <= i < 49 ensures s[i] < 100 && s[i + 1] == s[i] + 2 {
      assert s[i] == 2 * (i + 1) && s[i + 1] == 2 * (i + 2);
    }
  }

  /** Whether the Next button of `step` is enabled: the name step needs a
      name and the PIN step needs four characters; other steps have no Next
      button. */
  predicate CanAdvance(step: int, name: string, pin: string) {
    (step == 1 && name != "") || (step == 2 && |pin| >= PIN_MIN_LENGTH)
  }

  /** `SetupWizard`'s state.  Each method's `modifies` clause names the fields its handler
      sets; every other field keeps its value. */
  class Wizard {
    const licenseKey: string
    var step: int
    var name: string
    var pin: string
    var voicePhrase: string
    var syncProgress: int
    var isListening: bool
    /** The profiles passed to the scheduled `onComplete` calls not yet run. */
    var scheduled: seq<MasterProfile>
    /** The profiles `onComplete` received, in order. */
    var completed: seq<MasterProfile>
    /** Every value passed to `setSyncProgress`, in order. */
    ghost var progressShown: seq<int>

    constructor (key: string)
      ensures licenseKey == key && step == 1 && name == "" && pin == ""
      ensures voicePhrase == "PROTOCOL ALPHA" && syncProgress == 0 && !isListening
      ensures scheduled == [] && completed == [] && progressShown == []
    {
      licenseKey := key;
      step := 1;
      name := "";
      pin := "";
      voicePhrase := "PROTOCOL ALPHA";
      syncProgress := 0;
      isListening := false;
      scheduled := [];
      completed := [];
      progressShown := [];
    }

    /** The name field's `onChange`. */
    method TypeName(text: string)
      modifies this`name
      ensures name == text && step == old(step) && pin == old(pin)
      ensures scheduled == old(scheduled) && completed == old(completed)
    {
      name := text;
    }

    /** The PIN field's `onChange`, given the field's raw text. */
    method TypePin(raw: string)
      modifies this`pin
      ensures pin == PinField(raw) && step == old(step) && name == old(name)
      ensures scheduled == old(scheduled) && completed == old(completed)
    {
      pin := PinField(raw);
    }

    /** A click on Next: `handleNext()` runs only when the button is enabled,
        and then moves exactly one step on. */
    method Next()
      modifies this`step
      ensures CanAdvance(old(step), name, pin) ==> step == old(step) + 1
      ensures !CanAdvance(old(step), name, pin) ==> step == old(step)
      ensures name == old(name) && pin == old(pin) && voicePhrase == old(voicePhrase)
      ensures scheduled == old(scheduled) && completed == old(completed)
    {
      if CanAdvance(step, name, pin) {
        step := step + 1;
      }
    }

    /** `startVoiceRecord()`: without speech recognition nothing changes. */
    method StartVoiceRecord(supported: bool)
      modifies this`isListening
      ensures isListening == (supported || old(isListening))
      ensures voicePhrase == old(voicePhrase) && step == old(step)
      ensures scheduled == old(scheduled) && completed == old(completed)
    {
      if supported {
        isListening := true;
      }
    }

    /** `onresult`: the transcript, upper-cased, becomes the phrase. */
    method VoiceRecordResult(transcript: string)
      modifies this`voicePhrase, this`isListening
      ensures voicePhrase == Upper(transcript) && NoLower(voicePhrase) && !isListening
      ensures step == old(step) && name == old(name) && pin == old(pin)
      ensures scheduled == old(scheduled) && completed == old(completed)
    {
      voicePhrase := Upper(transcript);
      isListening := false;
    }

    /** `handleFinish()` at clock reading `now`: the wizard moves to the sync
        step, the interval adds 2 to the progress on each tick, and on the
        tick that reaches 100 it stops and schedules `onComplete` once with
        the final profile. */
    method Finish(now: int)
      modifies this`step, this`syncProgress, this`progressShown, this`scheduled
      ensures step == 4 && syncProgress == 100
      ensures progressShown == old(progressShown) + SyncSteps(50)
      ensures scheduled == old(scheduled) + [FinalProfile(old(name), old(pin), old(voicePhrase), licenseKey, now)]
      ensures name == old(name) && pin == old(pin) && voicePhrase == old(voicePhrase)
      ensures completed == old(completed)
    {
      step := 4;
      ghost var shown := progressShown;
      var p := 0;
      while p < 100
        invariant 0 <= p <= 100 && p % 2 == 0
        invariant syncProgress == p || (p == 0 && syncProgress == old(syncProgress))
        invariant progressShown == shown + SyncSteps(p / 2)
        invariant step == 4 && scheduled == old(scheduled) && completed == old(completed)
        invariant name == old(name) && pin == old(pin) && voicePhrase == old(voicePhrase)
      {
        p := p + 2;
        syncProgress := p;
        assert SyncSteps(p / 2) == SyncSteps((p - 2) / 2) + [p];
        progressShown := progressShown + [p];
      }
      scheduled := scheduled + [FinalProfile(name, pin, voicePhrase, licenseKey, now)];
    }

    /** The scheduled `onComplete(profile)` at index `i` runs. */
    method FireComplete(i: nat)
      requires i < |scheduled|
      modifies this`completed, this`scheduled
      ensures completed == old(completed) + [old(scheduled[i])]
      ensures scheduled == old(scheduled[..i] + scheduled[i + 1..])
      ensures step == old(step)
    {
      completed := completed + [scheduled[i]];
      scheduled := scheduled[..i] + scheduled[i + 1..];
    }
  }

  /** Walking the wizard through with a name and a four-digit PIN reaches the
      sync step, and the profile delivered carries what was entered. */
  method HappyPath(key: string, nm: string, raw: string, spoken: string, now: int) returns (w: Wizard)
    requires nm != ""
    requires |raw| == 4 && forall i :: 0 <= i < 4 ==> IsDigit(raw[i])
    ensures w.step == 4 && w.completed == [FinalProfile(nm, raw, Upper(spoken), key, now)]
    ensures w.completed[0].name == nm && w.completed[0].pin == raw && w.completed[0].licenseKey == key
  {
    w := new Wizard(key);
    w.TypeName(nm);
    w.Next();
    w.TypePin(raw);
    KeepDigitsOfDigits(raw);
    w.Next();
    w.VoiceRecordResult(spoken);
    UpperIdempotent(spoken);
    w.Finish(now);
    w.FireComplete(0);
  }
}
