/** The memory vault (components/MemoryVault.tsx): the password lock, adding
    and editing memories with comma-separated tags, the search filter, the
    newest-first ordering, the music-upload name default and the rule that
    links two memories in the neural view.

    Storage calls become values: the vault password in `localStorage` is a
    field of the screen, the lists `getMemories()` and `getMusicTracks()`
    return are parameters, and what the screen hands to `saveMemory` or
    `saveMusicTrack` is returned. */
module MemoryVault {
  import opened Strings
  import opened Types
  import Sorting

  // ---------------------------------------------------------------------------
  // Tags

  /** A tag as the vault stores it: non-empty, trimmed, free of commas. */
  predicate NormalTag(t: string) {
    t != "" && Trim(t) == t && ',' !in t
  }

  /** `parts.filter(t => t.length > 0)`: the non-empty parts, in order. */
  function NonEmpty(parts: seq<string>): (r: seq<string>)
    ensures forall t :: t in r <==> t in parts && t != ""
    ensures forall i :: 0 <= i < |r| ==> r[i] != ""
  {
    if parts == [] then []
    else if parts[0] == "" then NonEmpty(parts[1..])
    else [parts[0]] + NonEmpty(parts[1..])
  }

  /** Dropping empty parts changes nothing when there are none. */
  lemma {:induction false} NonEmptyKeepsAll(parts: seq<string>)
    requires forall i :: 0 <= i < |parts| ==> parts[i] != ""
    ensures NonEmpty(parts) == parts
    decreases |parts|
  {
    if parts != [] {
      assert parts[0] != "";
      NonEmptyKeepsAll(parts[1..]);
      assert parts == [parts[0]] + parts[1..];
    }
  }

  /** `text.split(',').map(t => t.trim()).filter(t => t)`. */
  function ParseTags(text: string): seq<string> {
    NonEmpty(TrimAll(Split(text, ",")))
  }

  /** A tag is parsed from the text iff it is the trimmed form of one of the
      comma-separated pieces and is not empty. */
  lemma {:induction false} ParseTagsIff(text: string, t: string)
    ensures t in ParseTags(text) <==>
      t != "" && exists i :: 0 <= i < |Split(text, ",")| && Trim(Split(text, ",")[i]) == t
  {
    CleanSplitIff(text, ",", t);
  }

  lemma {:induction false} CleanSplitIff(text: string, sep: string, t: string)
    requires |sep| > 0
    ensures t in NonEmpty(TrimAll(Split(text, sep))) <==>
      t != "" && exists i :: 0 <= i < |Split(text, sep)| && Trim(Split(text, sep)[i]) == t
  {
    TrimAllMember(Split(text, sep), t);
  }

  /** Every parsed tag is in normal form. */
  lemma {:induction false} ParseTagsNormal(text: string)
    ensures forall t :: t in ParseTags(text) ==> NormalTag(t)
  {
    forall t | t in ParseTags(text) ensures NormalTag(t) {
      ParseTagsIff(text, t);
      var i :| 0 <= i < |Split(text, ",")| && Trim(Split(text, ",")[i]) == t;
      PieceTrimmedNormal(text, i);
    }
  }

  lemma {:induction false} PieceTrimmedNormal(text: string, i: int)
    requires 0 <= i < |Split(text, ",")|
    ensures var t := Trim(Split(text, ",")[i]); t != "" ==> NormalTag(t)
  {
    var p := Split(text, ",")[i];
    var t := Trim(p);
    TrimIdempotent(p);
    SplitPiecesFree(text, ",");
    if ',' in t {
      ContainsChar(t, ',');
      TrimContained(p);
      ContainsTrans(p, t, ",");
      assert false;
    }
  }

  /** The tags after the first, each with the space `join(', ')` puts in
      front of it. */
  function Spaced(tags: seq<string>): (r: seq<string>)
    ensures |r| == |tags|
    ensures forall i :: 0 <= i < |tags| ==> r[i] == " " + tags[i]
  {
    if tags == [] then [] else [" " + tags[0]] + Spaced(tags[1..])
  }

  lemma {:induction false} JoinSpaced(tags: seq<string>)
    requires tags != []
    ensures Join(Spaced(tags), ",") == " " + Join(tags, ", ")
    decreases |tags|
  {
    if |tags| > 1 {
      JoinSpaced(tags[1..]);
      assert Spaced(tags)[1..] == Spaced(tags[1..]);
    }
  }

  lemma {:induction false} JoinCommaSpace(tags: seq<string>)
    requires tags != []
    ensures Join(tags, ", ") == Join([tags[0]] + Spaced(tags[1..]), ",")
  {
    var q := [tags[0]] + Spaced(tags[1..]);
    if |tags| > 1 {
      var x := Join(tags[1..], ", ");
      assert Join(q, ",") == tags[0] + "," + Join(Spaced(tags[1..]), ",") by {
        assert q[1..] == Spaced(tags[1..]);
      }
      assert Join(Spaced(tags[1..]), ",") == " " + x by {
        JoinSpaced(tags[1..]);
      }
      assert Join(tags, ", ") == tags[0] + ", " + x;
      assert tags[0] + "," + (" " + x) == tags[0] + ", " + x;
    }
  }

  lemma {:induction false} TrimSpacedOne(t: string)
    requires Trim(t) == t
    ensures Trim(" " + t) == t
  {
    TrimPadded(" ", t, "");
    assert " " + t + "" == " " + t;
  }

  /** Trimming the pieces of `tags.join(', ')` gives the normal tags back. */
  lemma {:induction false} TrimJoinPieces(tags: seq<string>)
    requires tags != []
    requires forall i :: 0 <= i < |tags| ==> NormalTag(tags[i])
    ensures TrimAll([tags[0]] + Spaced(tags[1..])) == tags
  {
    SpacedAfterFirst(tags);
    TrimPieces(tags, [tags[0]] + Spaced(tags[1..]));
  }

  /** Past the first piece, each piece of the join is its tag behind a space. */
  lemma {:induction false} SpacedAfterFirst(tags: seq<string>)
    requires tags != []
    ensures |[tags[0]] + Spaced(tags[1..])| == |tags|
    ensures forall i :: 1 <= i < |tags| ==> ([tags[0]] + Spaced(tags[1..]))[i] == " " + tags[i]
  {
    var rest := Spaced(tags[1..]);
    var pieces := [tags[0]] + rest;
    forall i | 1 <= i < |tags| ensures pieces[i] == " " + tags[i] {
      assert pieces[i] == rest[i - 1];
      assert tags[1..][i - 1] == tags[i];
    }
  }

  lemma {:induction false} TrimPieces(tags: seq<string>, pieces: seq<string>)
    requires |pieces| == |tags| && tags != [] && pieces[0] == tags[0]
    requires forall i :: 1 <= i < |tags| ==> pieces[i] == " " + tags[i]
    requires forall i :: 0 <= i < |tags| ==> NormalTag(tags[i])
    ensures TrimAll(pieces) == tags
  {
    forall i | 0 <= i < |tags| ensures Trim(pieces[i]) == tags[i] {
      assert NormalTag(tags[i]);
      if i > 0 {
        TrimSpacedOne(tags[i]);
      }
    }
  }

  /** Editing round trip: the text `startEditing` shows, `tags.join(', ')`,
      parses back to the same tags when they are in normal form, so saving an
      unchanged edit keeps the tags. */
  lemma {:induction false} EditTagsRoundTrip(tags: seq<string>)
    requires forall i :: 0 <= i < |tags| ==> NormalTag(tags[i])
    ensures ParseTags(Join(tags, ", ")) == tags
  {
    if tags == [] {
      CleanSplitEq("", ",", [""], []);
    } else {
      var pieces := [tags[0]] + Spaced(tags[1..]);
      assert Split(Join(tags, ", "), ",") == pieces by {
        JoinCommaSpace(tags);
        NormalCommaFree(tags);
        SpacedCommaFree(tags);
        SplitJoin(pieces, ',');
      }
      assert TrimAll(pieces) == tags by {
        TrimJoinPieces(tags);
      }
      assert NonEmpty(tags) == tags by {
        forall i | 0 <= i < |tags| ensures tags[i] != "" {
          assert NormalTag(tags[i]);
        }
        NonEmptyKeepsAll(tags);
      }
      CleanSplitEq(Join(tags, ", "), ",", pieces, tags);
    }
  }

  lemma {:induction false} CleanSplitEq(text: string, sep: string, pieces: seq<string>, tags: seq<string>)
    requires |sep| > 0 && Split(text, sep) == pieces
    requires NonEmpty(TrimAll(pieces)) == tags
    ensures NonEmpty(TrimAll(Split(text, sep))) == tags
  {
  }

  lemma {:induction false} SpacedCommaFree(tags: seq<string>)
    requires tags != []
    requires forall i :: 0 <= i < |tags| ==> ',' !in tags[i]
    ensures var pieces := [tags[0]] + Spaced(tags[1..]);
      forall k :: 0 <= k < |pieces| ==> ',' !in pieces[k]
  {
    var pieces := [tags[0]] + Spaced(tags[1..]);
    forall k | 0 <= k < |pieces| ensures ',' !in pieces[k] {
      if k > 0 {
        assert pieces[k] == " " + tags[k];
        SpaceCommaFree(tags[k]);
      }
    }
  }

  lemma {:induction false} SpaceCommaFree(t: string)
    requires ',' !in t
    ensures ',' !in " " + t
  {
  }

  lemma {:induction false} NormalCommaFree(tags: seq<string>)
    requires forall i :: 0 <= i < |tags| ==> NormalTag(tags[i])
    ensures forall i :: 0 <= i < |tags| ==> ',' !in tags[i]
  {
    forall i | 0 <= i < |tags| ensures ',' !in tags[i] {
      assert NormalTag(tags[i]);
    }
  }

  // ---------------------------------------------------------------------------
  // Search filter

  /** `tags.some(t => t.toLowerCase().includes(term))` for a lower-cased term. */
  predicate SomeTagContains(tags: seq<string>, term: string)
    decreases |tags|
  {
    tags != [] && (Contains(Lower(tags[0]), term) || SomeTagContains(tags[1..], term))
  }

  lemma {:induction false} SomeTagContainsIff(tags: seq<string>, term: string)
    ensures SomeTagContains(tags, term) <==> exists i :: 0 <= i < |tags| && Contains(Lower(tags[i]), term)
    decreases |tags|
  {
    if tags != [] {
      SomeTagContainsIff(tags[1..], term);
      if exists i :: 0 <= i < |tags| && Contains(Lower(tags[i]), term) {
        var i :| 0 <= i < |tags| && Contains(Lower(tags[i]), term);
        if i > 0 { assert tags[1..][i - 1] == tags[i]; }
      }
      if SomeTagContains(tags[1..], term) {
        var i :| 0 <= i < |tags[1..]| && Contains(Lower(tags[1..][i]), term);
        assert tags[i + 1] == tags[1..][i];
      }
    }
  }

  /** The filter's test for one memory. */
  predicate Matches(m: MemoryItem, filter: string) {
    var term := Lower(filter);
    Contains(Lower(m.content), term) || SomeTagContains(m.tags, term)
  }

  /** The memories shown for the search text: those that match, in order. */
  function Filtered(memories: seq<MemoryItem>, filter: string): (r: seq<MemoryItem>)
    ensures forall m :: m in r <==> m in memories && Matches(m, filter)
    ensures SubsequenceOf(r, memories)
  {
    if memories == [] then []
    else if Matches(memories[0], filter) then [memories[0]] + Filtered(memories[1..], filter)
    else Filtered(memories[1..], filter)
  }

  /** A memory matches iff its content or one of its tags contains the search
      text, ignoring letter case. */
  lemma {:induction false} MatchesIff(m: MemoryItem, filter: string)
    ensures Matches(m, filter) <==>
      Contains(Lower(m.content), Lower(filter)) ||
      exists i :: 0 <= i < |m.tags| && Contains(Lower(m.tags[i]), Lower(filter))
  {
    SomeTagContainsIff(m.tags, Lower(filter));
  }

  /** An empty search keeps every memory. */
  lemma {:induction false} EmptyFilterKeepsAll(memories: seq<MemoryItem>)
    ensures Filtered(memories, "") == memories
    decreases |memories|
  {
    if memories != [] {
      ContainsEmpty(Lower(memories[0].content));
      EmptyFilterKeepsAll(memories[1..]);
    }
  }

  /** The search ignores the case of the search text. */
  lemma {:induction false} FilterCaseInsensitive(memories: seq<MemoryItem>, filter: string)
    ensures Filtered(memories, Upper(filter)) == Filtered(memories, filter)
    decreases |memories|
  {
    LowerUpper(filter);
    if memories != [] {
      FilterCaseInsensitive(memories[1..], filter);
    }
  }

  // ---------------------------------------------------------------------------
  // Ordering

  function MemoryKey(m: MemoryItem): seq<int> {
    [-m.createdAt]
  }

  function TrackKey(t: MusicTrack): seq<int> {
    [-t.createdAt]
  }

  /** `data.sort((a, b) => b.createdAt - a.createdAt)` for memories. */
  function NewestMemories(data: seq<MemoryItem>): seq<MemoryItem> {
    Sorting.SortBy(data, MemoryKey)
  }

  /** The same ordering for music tracks. */
  function NewestTracks(data: seq<MusicTrack>): seq<MusicTrack> {
    Sorting.SortBy(data, TrackKey)
  }

  /** Memories are listed newest first, each exactly as often as stored. */
  lemma {:induction false} NewestMemoriesOrdered(data: seq<MemoryItem>)
    ensures multiset(NewestMemories(data)) == multiset(data)
    ensures var r := NewestMemories(data);
      forall i, j :: 0 <= i < j < |r| ==> r[i].createdAt >= r[j].createdAt
  {
    Sorting.SortByPermutation(data, MemoryKey);
    Sorting.SortBySorted(data, MemoryKey);
    var r := NewestMemories(data);
    forall i, j | 0 <= i < j < |r| ensures r[i].createdAt >= r[j].createdAt {
      assert Sorting.KeyLe(MemoryKey(r[i]), MemoryKey(r[j]));
    }
  }

  /** Tracks are listed newest first, each exactly as often as stored. */
  lemma {:induction false} NewestTracksOrdered(data: seq<MusicTrack>)
    ensures multiset(NewestTracks(data)) == multiset(data)
    ensures var r := NewestTracks(data);
      forall i, j :: 0 <= i < j < |r| ==> r[i].createdAt >= r[j].createdAt
  {
    Sorting.SortByPermutation(data, TrackKey);
    Sorting.SortBySorted(data, TrackKey);
    var r := NewestTracks(data);
    forall i, j | 0 <= i < j < |r| ensures r[i].createdAt >= r[j].createdAt {
      assert Sorting.KeyLe(TrackKey(r[i]), TrackKey(r[j]));
    }
  }

  // ---------------------------------------------------------------------------
  // File names

  /** The text after a dot that the pattern `\.[^/.]+$` removes. */
  predicate IsExtension(e: string) {
    e != "" && '.' !in e && '/' !in e
  }

  /** The position of the dot that starts the extension, looking at `s[..j + 1]`
      while everything after `j` is neither a dot nor a slash. */
  function ExtensionDot(s: string, j: int): (r: Option<nat>)
    requires -1 <= j < |s|
    requires forall m :: j < m < |s| ==> s[m] != '.' && s[m] != '/'
    ensures r.Some? ==> r.value <= j && s[r.value] == '.' && IsExtension(s[r.value + 1..])
    ensures r.None? ==> forall k :: 0 <= k <= j && s[k] == '.' ==> !IsExtension(s[k + 1..])
    decreases j + 1
  {
    if j < 0 then None
    else if s[j] == '.' then
      if j < |s| - 1 then
        PlainTail(s, j);
        Some(j)
      else
        BlockedBefore(s, j);
        None
    else if s[j] == '/' then
      BlockedBefore(s, j);
      None
    else ExtensionDot(s, j - 1)
  }

  /** After `j` there is neither a dot nor a slash. */
  lemma {:induction false} PlainTail(s: string, j: int)
    requires 0 <= j < |s|
    requires forall m :: j < m < |s| ==> s[m] != '.' && s[m] != '/'
    ensures '.' !in s[j + 1..] && '/' !in s[j + 1..]
  {
    var t := s[j + 1..];
    forall i | 0 <= i < |t| ensures t[i] != '.' && t[i] != '/' {
      assert t[i] == s[j + 1 + i];
    }
  }

  /** A dot or a slash at `j` keeps every earlier dot from starting an
      extension. */
  lemma {:induction false} BlockedBefore(s: string, j: int)
    requires 0 <= j < |s| && (s[j] == '.' || s[j] == '/')
    ensures forall k :: 0 <= k < j && s[k] == '.' ==> !IsExtension(s[k + 1..])
  {
    forall k | 0 <= k < j && s[k] == '.' ensures !IsExtension(s[k + 1..]) {
      assert s[k + 1..][j - k - 1] == s[j];
    }
  }

  /** `name.replace(/\.[^/.]+$/, "")`: drops a final extension, if any. */
  function StripExtension(name: string): (r: string)
    ensures forall k :: 0 <= k < |name| && name[k] == '.' && IsExtension(name[k + 1..]) ==> r == name[..k]
    ensures (forall k :: 0 <= k < |name| && name[k] == '.' ==> !IsExtension(name[k + 1..])) ==> r == name
  {
    match ExtensionDot(name, |name| - 1)
    case Some(k) =>
      BlockedBefore(name, k);
      name[..k]
    case None => name
  }

  /** The name an upload field shows after choosing a file: the typed name,
      or the file's name without extension when none was typed. */
  function DefaultTrackName(musicName: string, fileName: string): (r: string)
    ensures musicName != "" ==> r == musicName
    ensures musicName == "" ==> r == StripExtension(fileName)
  {
    if musicName == "" then StripExtension(fileName) else musicName
  }

  /** "song.mp3" is shown as "song"; "a.b/c" keeps its dot. */
  lemma {:induction false} StripExtensionExamples()
    ensures StripExtension("song.mp3") == "song"
    ensures StripExtension("archive.tar.gz") == "archive.tar"
    ensures StripExtension("dir.v2/track") == "dir.v2/track"
  {
    assert "song.mp3"[4] == '.' && IsExtension("song.mp3"[5..]);
    assert "archive.tar.gz"[11] == '.' && IsExtension("archive.tar.gz"[12..]);
    var s := "dir.v2/track";
    forall k | 0 <= k < |s| && s[k] == '.' ensures !IsExtension(s[k + 1..]) {
      assert k == 3;
      assert s[k + 1..][2] == '/';
    }
  }

  // ---------------------------------------------------------------------------
  // Neural view

  /** `n1.tags.filter(t => n2.tags.includes(t))`. */
  function SharedTags(a: seq<string>, b: seq<string>): (r: seq<string>)
    ensures forall t :: t in r <==> t in a && t in b
  {
    if a == [] then []
    else if a[0] in b then [a[0]] + SharedTags(a[1..], b)
    else SharedTags(a[1..], b)
  }

  /** Two memories are drawn linked when they share a tag. */
  predicate Linked(m1: MemoryItem, m2: MemoryItem) {
    |SharedTags(m1.tags, m2.tags)| > 0
  }

  /** Linking is symmetric and means exactly a common tag. */
  lemma {:induction false} LinkedIff(m1: MemoryItem, m2: MemoryItem)
    ensures Linked(m1, m2) <==> exists t :: t in m1.tags && t in m2.tags
    ensures Linked(m1, m2) <==> Linked(m2, m1)
  {
    var r := SharedTags(m1.tags, m2.tags);
    var q := SharedTags(m2.tags, m1.tags);
    if r != [] { assert r[0] in r; }
    if q != [] { assert q[0] in q; }
  }

  // ---------------------------------------------------------------------------
  // The vault screen

  /** The memory `handleAddMemory` saves at time `now`: none for blank
      content; otherwise the content as typed, stamped with the time as its
      id and creation time, with the tags parsed from the tag text, each in
      normal form. */
  function NewMemory(now: int, content: string, tagText: string, kind: MemoryKind): (r: Option<MemoryItem>)
    ensures r.None? <==> IsBlank(content)
    ensures r.Some? ==> r.value.id == IntToString(now) && r.value.createdAt == now
    ensures r.Some? ==> r.value.content == content && r.value.kind == kind
    ensures r.Some? ==> r.value.tags == ParseTags(tagText) && forall t :: t in r.value.tags ==> NormalTag(t)
  {
    if IsBlank(content) then None
    else
      ParseTagsNormal(tagText);
      Some(MemoryItem(IntToString(now), content, ParseTags(tagText), now, kind))
  }

  const ACCESS_DENIED: string := "ACCESS DENIED // INVALID CREDENTIALS"

  /** The screen's state.  `storedPassword` is the `localStorage` entry the
      password helpers read and write.  Each method's `modifies` clause
      names the fields its handler sets; every other field keeps its value. */
  class Vault {
    var storedPassword: Option<string>
    var isLocked: bool
    var hasPassword: bool
    var passwordInput: string
    var errorMsg: string
    var isSettingPassword: bool
    var newPassword: string
    var memories: seq<MemoryItem>
    var musicTracks: seq<MusicTrack>
    var filter: string
    var isAdding: bool
    var newContent: string
    var newTags: string
    var newType: MemoryKind
    var editingId: Option<string>
    var editContent: string
    var editTags: string
    var musicFile: Option<string>
    var musicName: string

    /** The first render, with the password entry found in storage. */
    constructor (stored: Option<string>)
      ensures storedPassword == stored
      ensures isLocked && !hasPassword && passwordInput == "" && errorMsg == ""
      ensures !isSettingPassword && newPassword == "" && memories == [] && musicTracks == []
      ensures filter == "" && !isAdding && newContent == "" && newTags == "" && newType == Note
      ensures editingId == None && editContent == "" && editTags == ""
      ensures musicFile == None && musicName == ""
    {
      storedPassword := stored;
      isLocked := true;
      hasPassword := false;
      passwordInput := "";
      errorMsg := "";
      isSettingPassword := false;
      newPassword := "";
      memories := [];
      musicTracks := [];
      filter := "";
      isAdding := false;
      newContent := "";
      newTags := "";
      newType := Note;
      editingId := None;
      editContent := "";
      editTags := "";
      musicFile := None;
      musicName := "";
    }

    /** `checkSecurity()`: a stored (non-empty) password locks the vault;
        without one it opens. */
    method CheckSecurity()
      modifies this`hasPassword, this`isLocked
      ensures var set_ := storedPassword.Some? && storedPassword.value != "";
        hasPassword == set_ && isLocked == set_
      ensures storedPassword == old(storedPassword) && passwordInput == old(passwordInput)
      ensures errorMsg == old(errorMsg) && memories == old(memories)
    {
      if storedPassword.Some? && storedPassword.value != "" {
        hasPassword := true;
        isLocked := true;
      } else {
        hasPassword := false;
        isLocked := false;
      }
    }

    /** `handleUnlock()`: the stored password opens the vault and clears the
        input and the error; anything else sets the error and clears the
        input.  The lock changes only on success. */
    method Unlock()
      modifies this`isLocked, this`passwordInput, this`errorMsg
      ensures var ok := old(storedPassword) == Some(old(passwordInput));
        (ok ==> !isLocked && errorMsg == "") &&
        (!ok ==> isLocked == old(isLocked) && errorMsg == ACCESS_DENIED)
      ensures passwordInput == ""
      ensures storedPassword == old(storedPassword) && hasPassword == old(hasPassword)
    {
      if storedPassword == Some(passwordInput) {
        isLocked := false;
        passwordInput := "";
        errorMsg := "";
      } else {
        errorMsg := ACCESS_DENIED;
        passwordInput := "";
      }
    }

    /** `handleSetPassword()`: a blank new password is ignored; otherwise it is
        stored as typed and the vault opens. */
    method SetPassword()
      modifies this`storedPassword, this`hasPassword, this`isSettingPassword, this`newPassword, this`isLocked
      ensures IsBlank(old(newPassword)) ==>
        storedPassword == old(storedPassword) && isLocked == old(isLocked) &&
        hasPassword == old(hasPassword) && newPassword == old(newPassword)
      ensures !IsBlank(old(newPassword)) ==>
        storedPassword == Some(old(newPassword)) && hasPassword && !isSettingPassword &&
        newPassword == "" && !isLocked
    {
      if IsBlank(newPassword) {
        return;
      }
      storedPassword := Some(newPassword);
      hasPassword := true;
      isSettingPassword := false;
      newPassword := "";
      isLocked := false;
    }

    /** `handleRemovePassword()`, after the confirmation dialog answered
        `confirmed`. */
    method RemovePassword(confirmed: bool)
      modifies this`storedPassword, this`hasPassword
      ensures confirmed ==> storedPassword == None && !hasPassword
      ensures !confirmed ==> storedPassword == old(storedPassword) && hasPassword == old(hasPassword)
      ensures isLocked == old(isLocked)
    {
      if confirmed {
        storedPassword := None;
        hasPassword := false;
      }
    }

    /** `handleLockVault()`. */
    method Lock()
      modifies this`isLocked
      ensures isLocked && storedPassword == old(storedPassword)
    {
      isLocked := true;
    }

    /** `loadMemories()` and `loadMusic()` with what storage returned. */
    method Load(memoryData: seq<MemoryItem>, trackData: seq<MusicTrack>)
      modifies this`memories, this`musicTracks
      ensures memories == NewestMemories(memoryData) && musicTracks == NewestTracks(trackData)
    {
      memories := NewestMemories(memoryData);
      musicTracks := NewestTracks(trackData);
    }

    /** `handleAddMemory()` at time `now`: blank content saves nothing and
        changes nothing; otherwise the returned memory is saved and the form
        is cleared and closed. */
    method AddMemory(now: int) returns (saved: Option<MemoryItem>)
      modifies this`newContent, this`newTags, this`isAdding
      ensures saved == NewMemory(now, old(newContent), old(newTags), old(newType))
      ensures saved.None? ==> newContent == old(newContent) && newTags == old(newTags) && isAdding == old(isAdding)
      ensures saved.Some? ==> newContent == "" && newTags == "" && !isAdding
    {
      saved := NewMemory(now, newContent, newTags, newType);
      if saved.Some? {
        ResetAddForm();
      }
    }

    /** Clears and closes the add form after a save. */
    method ResetAddForm()
      modifies this`newContent, this`newTags, this`isAdding
      ensures newContent == "" && newTags == "" && !isAdding
      ensures newType == old(newType) && memories == old(memories) && storedPassword == old(storedPassword)
    {
      newContent := "";
      newTags := "";
      isAdding := false;
    }

    /** `startEditing(item)`. */
    method StartEditing(item: MemoryItem)
      modifies this`editingId, this`editContent, this`editTags
      ensures editingId == Some(item.id) && editContent == item.content && editTags == Join(item.tags, ", ")
    {
      editingId := Some(item.id);
      editContent := item.content;
      editTags := Join(item.tags, ", ");
    }

    /** `saveEdit(original)`: the saved memory keeps everything but the content
        and the tags, which come from the edit fields. */
    method SaveEdit(original: MemoryItem) returns (saved: MemoryItem)
      modifies this`editingId
      ensures saved == original.(content := old(editContent), tags := ParseTags(old(editTags)))
      ensures editingId == None
    {
      saved := original.(content := editContent, tags := ParseTags(editTags));
      editingId := None;
    }

    /** `handleMusicFileSelect` with the chosen file's name, if any. */
    method SelectMusicFile(file: Option<string>)
      modifies this`musicFile, this`musicName
      ensures file.None? ==> musicFile == old(musicFile) && musicName == old(musicName)
      ensures file.Some? ==> musicFile == file && musicName == DefaultTrackName(old(musicName), file.value)
    {
      if file.Some? {
        musicFile := file;
        if musicName == "" {
          musicName := StripExtension(file.value);
        }
      }
    }

    /** `handleUploadMusic()` at time `now`: without a file or a name nothing is
        saved; otherwise the track is saved and the form cleared. */
    method UploadMusic(now: int) returns (saved: Option<MusicTrack>)
      modifies this`musicFile, this`musicName
      ensures (old(musicFile).None? || old(musicName) == "") <==> saved.None?
      ensures saved.Some? ==>
        saved.value == MusicTrack(IntToString(now), old(musicName), now) && musicFile == None && musicName == ""
      ensures saved.None? ==> musicFile == old(musicFile) && musicName == old(musicName)
    {
      if musicFile.None? || musicName == "" {
        return None;
      }
      saved := Some(MusicTrack(IntToString(now), musicName, now));
      musicFile := None;
      musicName := "";
    }
  }

  /** Editing a memory and saving it unchanged keeps its tags when they are in
      normal form, as every tag the vault itself saved is. */
  method EditUnchanged(v: Vault, item: MemoryItem) returns (saved: MemoryItem)
    requires forall i :: 0 <= i < |item.tags| ==> NormalTag(item.tags[i])
    modifies v
    ensures saved == item
  {
    v.StartEditing(item);
    saved := v.SaveEdit(item);
    EditTagsRoundTrip(item.tags);
  }
}
