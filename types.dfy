/** The records, enumerations and tables of the assistant (types.ts and constants.ts).

    Timestamps are integers of milliseconds since the epoch, as `Date.now()`
    returns them.  JavaScript's "falsy" zero matters in a few places (a
    `snoozedUntil` or `lastRelapseDate` of 0 behaves as missing), so those
    fields stay integers and the modules test them explicitly. */
module Types {
  import opened Strings

  // ---------------------------------------------------------------------------
  // Enumerations

  datatype AppView = CHAT | MEMORY | PRODUCTIVITY | DEV_TOOLS | SETTINGS | M_TRACKER | ADMIN_GENESIS

  /** `Object.keys(AppView)` in declaration order. */
  const AppViews: seq<AppView> := [CHAT, MEMORY, PRODUCTIVITY, DEV_TOOLS, SETTINGS, M_TRACKER, ADMIN_GENESIS]

  function AppViewKey(v: AppView): string {
    match v
    case CHAT => "CHAT"
    case MEMORY => "MEMORY"
    case PRODUCTIVITY => "PRODUCTIVITY"
    case DEV_TOOLS => "DEV_TOOLS"
    case SETTINGS => "SETTINGS"
    case M_TRACKER => "M_TRACKER"
    case ADMIN_GENESIS => "ADMIN_GENESIS"
  }

  datatype ThemeName =
    | NEON_BLUE | RED_HACKER | GREEN_MATRIX | PURPLE_CYBERPUNK | MINIMAL_WHITE
    | AMOLED_BLACK | GOLD_LUXURY | CYBER_ORANGE | ICE_BERG | MIDNIGHT_PURPLE

  /** `Object.keys(ThemeName)` in declaration order. */
  const Themes: seq<ThemeName> :=
    [NEON_BLUE, RED_HACKER, GREEN_MATRIX, PURPLE_CYBERPUNK, MINIMAL_WHITE,
     AMOLED_BLACK, GOLD_LUXURY, CYBER_ORANGE, ICE_BERG, MIDNIGHT_PURPLE]

  /** The key of a theme; for this enumeration the value is the same string. */
  function ThemeKey(t: ThemeName): string {
    match t
    case NEON_BLUE => "NEON_BLUE"
    case RED_HACKER => "RED_HACKER"
    case GREEN_MATRIX => "GREEN_MATRIX"
    case PURPLE_CYBERPUNK => "PURPLE_CYBERPUNK"
    case MINIMAL_WHITE => "MINIMAL_WHITE"
    case AMOLED_BLACK => "AMOLED_BLACK"
    case GOLD_LUXURY => "GOLD_LUXURY"
    case CYBER_ORANGE => "CYBER_ORANGE"
    case ICE_BERG => "ICE_BERG"
    case MIDNIGHT_PURPLE => "MIDNIGHT_PURPLE"
  }

  datatype VoiceSkin =
    | CLASSIC_AI | ROBOTIC_GRUNT | SOFT_ASSISTANT | CYBER_HACKER | DEEP_PROTOCOL
    | PERSONALIZED | GLITCH_ENTITY | HYPER_VELOCITY | VOID_WALKER | ROYAL_GUARD
    | SYSTEM_PRIME | IRON_MODULATION

  datatype AvatarType =
    | CLASSIC | MARCO_OFFICIAL | MARCO_2_0 | MARCO_3_0 | CYBER_SKULL | ZEN_ORB
    | REACTOR_CORE | FLUX_ENTITY | ECHO_PULSE | CYBER_FOX | VOXEL_GRID | CELESTIAL
    | SPIRAL_NEXUS | NEBULA_WHISPER | QUANTUM_SHIFT | OBSIDIAN_GUARDIAN
    | CHROME_SERAPH | ARCANE_SENTINEL

  /** `Object.keys(AvatarType)` in declaration order. */
  const AvatarKeys: seq<AvatarType> :=
    [CLASSIC, MARCO_OFFICIAL, MARCO_2_0, MARCO_3_0, CYBER_SKULL, ZEN_ORB,
     REACTOR_CORE, FLUX_ENTITY, ECHO_PULSE, CYBER_FOX, VOXEL_GRID, CELESTIAL,
     SPIRAL_NEXUS, NEBULA_WHISPER, QUANTUM_SHIFT, OBSIDIAN_GUARDIAN,
     CHROME_SERAPH, ARCANE_SENTINEL]

  datatype PersonalityMode = LOGICAL | CREATIVE | EMPATHETIC | HUMOROUS

  datatype UserRole = MASTER | GUEST | INTRUDER

  function RoleName(r: UserRole): string {
    match r
    case MASTER => "MASTER"
    case GUEST => "GUEST"
    case INTRUDER => "INTRUDER"
  }

  datatype Overlay = NONE | HACK_SIMULATION | MATRIX_RAIN | SYSTEM_REBOOT | ALARM_TRIGGER

  // ---------------------------------------------------------------------------
  // Records

  datatype MasterProfile = MasterProfile(
    isRegistered: bool,
    name: string,
    voicePhrase: string,
    pin: string,
    licenseKey: string,
    registeredAt: int)

  /** A string-keyed counter record (`Record<string, number>`), kept as its
      entries in insertion order, which is the order `Object.entries` lists
      them in for non-numeric keys. */
  datatype Counter = Counter(key: string, count: int)

  datatype LearningProfile = LearningProfile(
    topCommands: seq<Counter>,
    preferredThemes: seq<Counter>,
    topics: seq<Counter>,
    totalInteractions: int,
    lastActive: int)

  datatype CommandAction = NAVIGATE | THEME | SOUND | OVERLAY | OPEN_URL | ALARM | FOCUS | NOTE | MUSIC

  function ActionName(a: CommandAction): string {
    match a
    case NAVIGATE => "NAVIGATE"
    case THEME => "THEME"
    case SOUND => "SOUND"
    case OVERLAY => "OVERLAY"
    case OPEN_URL => "OPEN_URL"
    case ALARM => "ALARM"
    case FOCUS => "FOCUS"
    case NOTE => "NOTE"
    case MUSIC => "MUSIC"
  }

  datatype CustomCommand = CustomCommand(id: string, trigger: string, action: CommandAction, payload: string)

  datatype AlarmSound = SIREN | PULSE | ETHEREAL

  /** `snoozedUntil` is absent or a timestamp; 0 counts as absent wherever the
      source tests it for truth. */
  datatype Alarm = Alarm(
    id: string,
    time: string,
    labelText: string,
    isActive: bool,
    days: seq<int>,
    sound: AlarmSound,
    snoozedUntil: Option<int>)

  datatype StreakStatus = CLEAN | RELAPSED | WARZONE

  datatype HistoryEntry = HistoryEntry(date: int, streakHours: int)

  datatype NoFapState = NoFapState(
    currentStreakHours: int,
    lastRelapseDate: int,
    bestStreakHours: int,
    history: seq<HistoryEntry>,
    status: StreakStatus)

  datatype Role = User | Model | System

  /** A chat message.  Identifiers and timestamps come from the clock and are
      not part of the model. */
  datatype Message = Message(role: Role, content: string, isCommandResult: bool)

  datatype MemoryKind = Note | Fact | Summary | Directive

  datatype MemoryItem = MemoryItem(id: string, content: string, tags: seq<string>, createdAt: int, kind: MemoryKind)

  datatype Priority = HIGH | MED | LOW

  datatype TodoItem = TodoItem(id: string, text: string, completed: bool, priority: Option<Priority>)

  datatype FocusState = FocusState(isActive: bool, durationMinutes: int, startTime: Option<int>, labelText: string)

  /** A stored track; the audio blob itself is not modelled. */
  datatype MusicTrack = MusicTrack(id: string, name: string, createdAt: int)

  /** The track the chat's player is playing, with the object URL of its
      blob (`null` before any track is chosen). */
  datatype ActiveMusic = ActiveMusic(isPlaying: bool, trackName: string, url: Option<string>)

  // ---------------------------------------------------------------------------
  // Tables

  datatype Gender = Male | Female

  /** Pitch and rate of a voice skin, with its preferred languages and gender. */
  datatype VoiceConfig = VoiceConfig(pitch: real, rate: real, langPreference: seq<string>, gender: Option<Gender>)

  function VoiceConfigOf(skin: VoiceSkin): VoiceConfig {
    match skin
    case CLASSIC_AI => VoiceConfig(1.0, 1.0, ["en-GB", "en-US"], Some(Male))
    case ROBOTIC_GRUNT => VoiceConfig(0.6, 1.0, ["en-US"], Some(Male))
    case SOFT_ASSISTANT => VoiceConfig(1.1, 0.95, ["en-US", "en-GB"], Some(Female))
    case CYBER_HACKER => VoiceConfig(0.85, 1.25, ["en-US"], None)
    case DEEP_PROTOCOL => VoiceConfig(0.4, 1.1, ["en-US"], Some(Male))
    case PERSONALIZED => VoiceConfig(1.0, 1.0, ["en-US", "en-GB"], None)
    case GLITCH_ENTITY => VoiceConfig(1.0, 1.0, ["en-US"], None)
    case HYPER_VELOCITY => VoiceConfig(1.1, 1.6, ["en-US"], None)
    case VOID_WALKER => VoiceConfig(0.2, 0.8, ["en-US"], Some(Male))
    case ROYAL_GUARD => VoiceConfig(0.9, 0.9, ["en-GB"], Some(Male))
    case SYSTEM_PRIME => VoiceConfig(1.05, 1.05, ["en-US"], Some(Female))
    case IRON_MODULATION => VoiceConfig(0.9, 1.05, ["en-GB", "en-US"], Some(Male))
  }

  function PersonalityPrompt(p: PersonalityMode): string {
    match p
    case LOGICAL => "Tone: Precise, analytical, data-driven. Focus on facts, efficiency, and clarity. Minimal emotional affect."
    case CREATIVE => "Tone: Imaginative, colorful, abstract. Use metaphors and think outside the box. Inspire the user with novel ideas."
    case EMPATHETIC => "Tone: Warm, understanding, supportive. Focus on user well-being and emotional resonance. Act as a caring companion."
    case HUMOROUS => "Tone: Witty, sarcastic, playful. Use humor, pop-culture references, and light teasing where appropriate."
  }

  datatype Rank = Rank(days: int, title: string, color: string)

  /** The streak ranks, in ascending order of days. */
  const M_RANKS: seq<Rank> := [
    Rank(0, "RECRUIT", "gray-500"),
    Rank(3, "NOVICE", "blue-500"),
    Rank(7, "APPRENTICE", "green-500"),
    Rank(14, "ADEPT", "cyan-500"),
    Rank(30, "WARRIOR", "yellow-500"),
    Rank(60, "KNIGHT", "orange-500"),
    Rank(90, "MASTER", "red-500"),
    Rank(180, "GRANDMASTER", "purple-500"),
    Rank(365, "LEGEND", "fuchsia-500")
  ]

  const MASTER_KEY: string := "MARCO-DEV-WAIZ-MASTER"

  /** The profile used before any profile is stored. */
  const DEFAULT_PROFILE: MasterProfile := MasterProfile(false, "Master", "PROTOCOL ALPHA", "0000", "", 0)
}
