/**
 * The persisted document of the client-side store (src/utils/storage.ts): its typed
 * shape, the partial shape a parsed blob or an update payload has, the object-spread
 * override on each section, the defaults, and `validateAndMergeState`.
 */
module AppStateModel {
  import opened Wrappers

  /** The schema version the store writes and migrates to. */
  const Version: string := "1.0.0"

  datatype StorageConfig = StorageConfig(version: string, lastUpdated: string)

  datatype Theme = Light | Dark | System
  datatype VideoQuality = Low | Medium | High

  datatype UserPreferences = UserPreferences(
    theme: Theme,
    language: string,
    videoQuality: VideoQuality,
    audioEnabled: bool,
    videoEnabled: bool,
    notifications: bool,
    autoStartVideo: bool)

  /** `lastUsedConversationId` is an optional key that the defaults do not carry. */
  datatype TavusSettings = TavusSettings(
    apiKey: string,
    replicaId: string,
    personaId: string,
    lastUsedConversationId: Option<string>,
    maxDuration: int,
    enableStreaming: bool,
    videoChatEnabled: bool)

  datatype ConversationStatus = Active | Completed | Error

  datatype Conversation = Conversation(
    id: string,
    name: string,
    createdAt: string,
    lastMessageAt: string,
    messageCount: int,
    status: ConversationStatus,
    videoUrl: Option<string>)

  datatype MessageType = User | Agent

  /** A stored message; `kind` is the source's `type` key (a reserved word here). */
  datatype Message = Message(
    id: string,
    conversationId: string,
    content: string,
    kind: MessageType,
    timestamp: string,
    videoUrl: Option<string>)

  datatype AppState = AppState(
    config: StorageConfig,
    userPreferences: UserPreferences,
    tavusSettings: TavusSettings,
    conversations: seq<Conversation>,
    recentMessages: seq<Message>)

  // ---------------------------------------------------------------------------
  // Partial shapes: a key is `None` when the object does not carry it.

  datatype PartialConfig = PartialConfig(version: Option<string>, lastUpdated: Option<string>)

  datatype PartialPreferences = PartialPreferences(
    theme: Option<Theme>,
    language: Option<string>,
    videoQuality: Option<VideoQuality>,
    audioEnabled: Option<bool>,
    videoEnabled: Option<bool>,
    notifications: Option<bool>,
    autoStartVideo: Option<bool>)

  datatype PartialTavusSettings = PartialTavusSettings(
    apiKey: Option<string>,
    replicaId: Option<string>,
    personaId: Option<string>,
    lastUsedConversationId: Option<string>,
    maxDuration: Option<int>,
    enableStreaming: Option<bool>,
    videoChatEnabled: Option<bool>)

  datatype PartialConversation = PartialConversation(
    id: Option<string>,
    name: Option<string>,
    createdAt: Option<string>,
    lastMessageAt: Option<string>,
    messageCount: Option<int>,
    status: Option<ConversationStatus>,
    videoUrl: Option<string>)

  /** `Partial<AppState>`: what a parsed blob is taken to be before it is merged. */
  datatype RawState = RawState(
    config: Option<PartialConfig>,
    userPreferences: Option<PartialPreferences>,
    tavusSettings: Option<PartialTavusSettings>,
    conversations: Option<seq<Conversation>>,
    recentMessages: Option<seq<Message>>)

  const NoConfig := PartialConfig(None, None)
  const NoPreferences := PartialPreferences(None, None, None, None, None, None, None)
  const NoTavusSettings := PartialTavusSettings(None, None, None, None, None, None, None)
  const NoConversationKeys := PartialConversation(None, None, None, None, None, None, None)

  // ---------------------------------------------------------------------------
  // Object spread `{ ...base, ...patch }`, section by section.

  /** The value a spread leaves at one key: the patch's value when it has the key, else the base's. */
  function Pick<T>(given: Option<T>, fallback: T): T {
    given.GetOr(fallback)
  }

  /** Pick for a key that is itself optional in the base. */
  function PickOptional<T>(given: Option<T>, fallback: Option<T>): Option<T> {
    if given.Some? then given else fallback
  }

  /** The key of the result is the patch's when the patch has it, and the base's otherwise. */
  ghost predicate Wins<T>(given: Option<T>, fallback: T, result: T) {
    (given.Some? ==> result == given.value) && (given.None? ==> result == fallback)
  }

  function OverrideConfig(base: StorageConfig, p: PartialConfig): (r: StorageConfig)
    ensures Wins(p.version, base.version, r.version)
    ensures Wins(p.lastUpdated, base.lastUpdated, r.lastUpdated)
  {
    StorageConfig(Pick(p.version, base.version), Pick(p.lastUpdated, base.lastUpdated))
  }

  function OverridePreferences(base: UserPreferences, p: PartialPreferences): (r: UserPreferences)
    ensures Wins(p.theme, base.theme, r.theme)
    ensures Wins(p.language, base.language, r.language)
    ensures Wins(p.videoQuality, base.videoQuality, r.videoQuality)
    ensures Wins(p.audioEnabled, base.audioEnabled, r.audioEnabled)
    ensures Wins(p.videoEnabled, base.videoEnabled, r.videoEnabled)
    ensures Wins(p.notifications, base.notifications, r.notifications)
    ensures Wins(p.autoStartVideo, base.autoStartVideo, r.autoStartVideo)
  {
    UserPreferences(
      Pick(p.theme, base.theme),
      Pick(p.language, base.language),
      Pick(p.videoQuality, base.videoQuality),
      Pick(p.audioEnabled, base.audioEnabled),
      Pick(p.videoEnabled, base.videoEnabled),
      Pick(p.notifications, base.notifications),
      Pick(p.autoStartVideo, base.autoStartVideo))
  }

  function OverrideTavusSettings(base: TavusSettings, p: PartialTavusSettings): (r: TavusSettings)
    ensures Wins(p.apiKey, base.apiKey, r.apiKey)
    ensures Wins(p.replicaId, base.replicaId, r.replicaId)
    ensures Wins(p.personaId, base.personaId, r.personaId)
    ensures p.lastUsedConversationId.Some? ==> r.lastUsedConversationId == p.lastUsedConversationId
    ensures p.lastUsedConversationId.None? ==> r.lastUsedConversationId == base.lastUsedConversationId
    ensures Wins(p.maxDuration, base.maxDuration, r.maxDuration)
    ensures Wins(p.enableStreaming, base.enableStreaming, r.enableStreaming)
    ensures Wins(p.videoChatEnabled, base.videoChatEnabled, r.videoChatEnabled)
  {
    TavusSettings(
      Pick(p.apiKey, base.apiKey),
      Pick(p.replicaId, base.replicaId),
      Pick(p.personaId, base.personaId),
      PickOptional(p.lastUsedConversationId, base.lastUsedConversationId),
      Pick(p.maxDuration, base.maxDuration),
      Pick(p.enableStreaming, base.enableStreaming),
      Pick(p.videoChatEnabled, base.videoChatEnabled))
  }

  /** `{ ...conversation, ...updates }`: the update payload may rename the record too. */
  function OverrideConversation(base: Conversation, p: PartialConversation): (r: Conversation)
    ensures Wins(p.id, base.id, r.id)
    ensures Wins(p.name, base.name, r.name)
    ensures Wins(p.createdAt, base.createdAt, r.createdAt)
    ensures Wins(p.lastMessageAt, base.lastMessageAt, r.lastMessageAt)
    ensures Wins(p.messageCount, base.messageCount, r.messageCount)
    ensures Wins(p.status, base.status, r.status)
    ensures p.videoUrl.Some? ==> r.videoUrl == p.videoUrl
    ensures p.videoUrl.None? ==> r.videoUrl == base.videoUrl
  {
    Conversation(
      Pick(p.id, base.id),
      Pick(p.name, base.name),
      Pick(p.createdAt, base.createdAt),
      Pick(p.lastMessageAt, base.lastMessageAt),
      Pick(p.messageCount, base.messageCount),
      Pick(p.status, base.status),
      PickOptional(p.videoUrl, base.videoUrl))
  }

  // ---------------------------------------------------------------------------
  // Full records seen as partial ones (what parsing a serialised state gives back).

  function ConfigKeys(c: StorageConfig): PartialConfig {
    PartialConfig(Some(c.version), Some(c.lastUpdated))
  }

  function PreferenceKeys(u: UserPreferences): PartialPreferences {
    PartialPreferences(Some(u.theme), Some(u.language), Some(u.videoQuality), Some(u.audioEnabled),
                       Some(u.videoEnabled), Some(u.notifications), Some(u.autoStartVideo))
  }

  function TavusSettingKeys(t: TavusSettings): PartialTavusSettings {
    PartialTavusSettings(Some(t.apiKey), Some(t.replicaId), Some(t.personaId), t.lastUsedConversationId,
                         Some(t.maxDuration), Some(t.enableStreaming), Some(t.videoChatEnabled))
  }

  /** The raw object that a full state becomes once written out and read back. */
  function ToRaw(s: AppState): RawState {
    RawState(Some(ConfigKeys(s.config)), Some(PreferenceKeys(s.userPreferences)),
             Some(TavusSettingKeys(s.tavusSettings)), Some(s.conversations), Some(s.recentMessages))
  }

  /** A raw object with no keys at all (`{}`, or any non-object JSON value other than null). */
  const EmptyRaw := RawState(None, None, None, None, None)

  // ---------------------------------------------------------------------------
  // Defaults, merge and migration.

  /** `defaultState`, evaluated once when the store is created at time `createdAt`. */
  function DefaultState(createdAt: string): (r: AppState)
    ensures r.config.version == Version && r.config.lastUpdated == createdAt
    ensures r.conversations == [] && r.recentMessages == []
    ensures r.tavusSettings.apiKey == "" && r.tavusSettings.lastUsedConversationId.None?
  {
    AppState(
      StorageConfig(Version, createdAt),
      UserPreferences(System, "en", High, true, true, true, false),
      TavusSettings("", "r89d844f2b467046d54fef9d08619d180588edea6160", "p38f53895b11", None, 30, true, true),
      [],
      [])
  }

  /**
   * `validateAndMergeState`: each record section is the default section overridden key by
   * key by the raw section; each list is taken verbatim, or `[]` when absent.
   */
  function ValidateAndMerge(d: AppState, raw: RawState): (r: AppState)
    ensures raw.config.None? ==> r.config == d.config
    ensures raw.config.Some? ==> r.config == OverrideConfig(d.config, raw.config.value)
    ensures raw.userPreferences.None? ==> r.userPreferences == d.userPreferences
    ensures raw.userPreferences.Some? ==> r.userPreferences == OverridePreferences(d.userPreferences, raw.userPreferences.value)
    ensures raw.tavusSettings.None? ==> r.tavusSettings == d.tavusSettings
    ensures raw.tavusSettings.Some? ==> r.tavusSettings == OverrideTavusSettings(d.tavusSettings, raw.tavusSettings.value)
    ensures r.conversations == if raw.conversations.Some? then raw.conversations.value else []
    ensures r.recentMessages == if raw.recentMessages.Some? then raw.recentMessages.value else []
  {
    AppState(
      OverrideConfig(d.config, raw.config.GetOr(NoConfig)),
      OverridePreferences(d.userPreferences, raw.userPreferences.GetOr(NoPreferences)),
      OverrideTavusSettings(d.tavusSettings, raw.tavusSettings.GetOr(NoTavusSettings)),
      raw.conversations.GetOr([]),
      raw.recentMessages.GetOr([]))
  }

  /** The version re-tag that `migrateData` applies to the merged state. */
  function Retagged(s: AppState): (r: AppState)
    ensures r.config.version == Version
    ensures r == s.(config := r.config) && r.config.lastUpdated == s.config.lastUpdated
  {
    s.(config := s.config.(version := Version))
  }

  /** `saveState`'s copy of the state with `config.lastUpdated` set to the time of the write. */
  function Stamped(s: AppState, now: string): (r: AppState)
    ensures r.config.lastUpdated == now && r.config.version == s.config.version
    ensures r == s.(config := r.config)
  {
    s.(config := s.config.(lastUpdated := now))
  }

  // ---------------------------------------------------------------------------
  // Properties of the merge.

  /**
   * A raw object that carries every key is taken whole. The one key a written-out state can
   * lack is the optional `lastUsedConversationId`, so this needs defaults without it.
   */
  lemma MergeOfCompleteState(d: AppState, s: AppState)
    requires d.tavusSettings.lastUsedConversationId.None?
    ensures ValidateAndMerge(d, ToRaw(s)) == s
  {
  }

  /** Merging the result of a merge again changes nothing, whatever the defaults. */
  lemma MergeIdempotent(d: AppState, raw: RawState)
    ensures ValidateAndMerge(d, ToRaw(ValidateAndMerge(d, raw))) == ValidateAndMerge(d, raw)
  {
  }

  /** An object without keys merges to the defaults with empty lists. */
  lemma MergeOfEmpty(d: AppState)
    ensures ValidateAndMerge(d, EmptyRaw) == d.(conversations := [], recentMessages := [])
  {
  }

  /** Spreading the same patch twice is spreading it once. */
  lemma OverrideIdempotent(b: UserPreferences, p: PartialPreferences, t: TavusSettings, q: PartialTavusSettings,
                           c: Conversation, u: PartialConversation)
    ensures OverridePreferences(OverridePreferences(b, p), p) == OverridePreferences(b, p)
    ensures OverrideTavusSettings(OverrideTavusSettings(t, q), q) == OverrideTavusSettings(t, q)
    ensures OverrideConversation(OverrideConversation(c, u), u) == OverrideConversation(c, u)
  {
  }
}
