/**
 * `LocalStorageManager` (src/utils/storage.ts:51-269): the object that owns the blob under
 * `tavus_app_data`. Every method reads that blob afresh, changes a local copy of the state
 * and writes it back. Each method that has a StorageSpec function is proved to leave the
 * blob that function describes; `ClearAll` and `ClearAllData` are stated directly.
 */
module StorageManager {
  import opened Wrappers
  import opened AppStateModel
  import opened History
  import Spec = StorageSpec

  class LocalStorageManager {
    /** JSON as the browser implements it. */
    const codec: Spec.Codec
    /** The time at which `defaultState`'s `lastUpdated` was taken. */
    const createdAt: string
    const defaultState: AppState
    /** `localStorage.getItem('tavus_app_data')`; None when the key is not set. */
    var blob: Option<string>

    ghost predicate Valid() {
      Spec.Lawful(codec) && defaultState == DefaultState(createdAt)
    }

    function Ctx(): Spec.Context {
      Spec.Context(codec, createdAt)
    }

    /** A store over a browser profile whose storage holds `stored`, created at time `now`. */
    constructor (json: Spec.Codec, stored: Option<string>, now: string)
      requires Spec.Lawful(json)
      ensures Valid() && codec == json && createdAt == now && blob == stored
    {
      codec := json;
      createdAt := now;
      defaultState := DefaultState(now);
      blob := stored;
    }

    /** `getState`: reads, never writes. */
    function GetState(): (s: AppState)
      reads this
      ensures Valid() && Spec.StoredRaw(Ctx(), blob).None? ==> s == defaultState
    {
      Spec.GetState(Ctx(), blob)
    }

    /** `saveState`: stamps `lastUpdated` and writes; storage failures are not modelled. */
    method SaveState(state: AppState, now: string)
      requires Valid()
      modifies this
      ensures blob == Spec.Saved(Ctx(), state, now)
      ensures GetState() == Stamped(state, now)
    {
      var updatedState := state.(config := state.config.(lastUpdated := now));
      blob := Some(codec.stringify(updatedState));
      Spec.ReadAfterSave(Ctx(), state, now);
    }

    method Init(now: string) returns (s: AppState)
      requires Valid()
      modifies this
      ensures Spec.Init(Ctx(), old(blob), now) == Spec.Loaded(s, blob)
      ensures s.config.version == Version && GetState().config.version == Version
    {
      Spec.InitThenGetState(Ctx(), blob, now);
      if blob == None || blob.value == "" {
        SaveState(defaultState, now);
        return defaultState;
      }
      var parsed := codec.parse(blob.value);
      if parsed.None? || parsed.value.NullDocument? || parsed.value.raw.config.None? {
        // JSON.parse threw, or reading `config.version` did: the catch block.
        SaveState(defaultState, now);
        return defaultState;
      }
      var parsedState := parsed.value.raw;
      if parsedState.config.value.version != Some(Version) {
        s := MigrateData(parsedState, now);
        return;
      }
      s := ValidateAndMerge(defaultState, parsedState);
    }

    method MigrateData(oldState: RawState, now: string) returns (migratedState: AppState)
      requires Valid()
      modifies this
      ensures Spec.Migrate(Ctx(), oldState, now) == Spec.Loaded(migratedState, blob)
      ensures GetState() == Stamped(migratedState, now)
    {
      migratedState := ValidateAndMerge(defaultState, oldState);
      migratedState := migratedState.(config := migratedState.config.(version := Version));
      SaveState(migratedState, now);
    }

    method UpdateUserPreferences(preferences: PartialPreferences, now: string)
      requires Valid()
      modifies this
      ensures blob == Spec.UpdateUserPreferences(Ctx(), old(blob), preferences, now)
      ensures GetState() == Stamped(old(GetState()), now).(
        userPreferences := OverridePreferences(old(GetState()).userPreferences, preferences))
    {
      var state := GetState();
      state := state.(userPreferences := OverridePreferences(state.userPreferences, preferences));
      SaveState(state, now);
    }

    method UpdateTavusSettings(settings: PartialTavusSettings, now: string)
      requires Valid()
      modifies this
      ensures blob == Spec.UpdateTavusSettings(Ctx(), old(blob), settings, now)
      ensures GetState() == Stamped(old(GetState()), now).(
        tavusSettings := OverrideTavusSettings(old(GetState()).tavusSettings, settings))
    {
      var state := GetState();
      state := state.(tavusSettings := OverrideTavusSettings(state.tavusSettings, settings));
      SaveState(state, now);
    }

    method AddConversation(conversation: Conversation, now: string)
      requires Valid()
      modifies this
      ensures blob == Spec.AddConversation(Ctx(), old(blob), conversation, now)
      ensures GetState() == Stamped(old(GetState()), now).(
        conversations := WithConversation(old(GetState()).conversations, conversation))
    {
      var state := GetState();
      var existingIndex := IndexOf(state.conversations, conversation.id);
      if existingIndex >= 0 {
        state := state.(conversations := state.conversations[existingIndex := conversation]);
      } else {
        state := state.(conversations := [conversation] + state.conversations);
        if |state.conversations| > MaxConversations {
          state := state.(conversations := state.conversations[..MaxConversations]);
        }
      }
      SaveState(state, now);
    }

    method UpdateConversation(id: string, updates: PartialConversation, now: string)
      requires Valid()
      modifies this
      ensures blob == Spec.UpdateConversation(Ctx(), old(blob), id, updates, now)
      ensures IndexOf(old(GetState()).conversations, id) < 0 ==> blob == old(blob)
      ensures IndexOf(old(GetState()).conversations, id) >= 0 ==>
        GetState() == Stamped(old(GetState()), now).(
          conversations := WithConversationUpdated(old(GetState()).conversations, id, updates))
    {
      var state := GetState();
      var index := IndexOf(state.conversations, id);
      if index >= 0 {
        state := state.(conversations := state.conversations[index := OverrideConversation(state.conversations[index], updates)]);
        SaveState(state, now);
      }
    }

    method DeleteConversation(id: string, now: string)
      requires Valid()
      modifies this
      ensures blob == Spec.DeleteConversation(Ctx(), old(blob), id, now)
      ensures forall i :: 0 <= i < |GetState().conversations| ==> GetState().conversations[i].id != id
      ensures forall i :: 0 <= i < |GetState().recentMessages| ==> GetState().recentMessages[i].conversationId != id
    {
      Spec.DeleteConversationCascades(Ctx(), blob, id, now);
      var state := GetState();
      state := state.(conversations := WithoutConversation(state.conversations, id));
      state := state.(recentMessages := WithoutMessagesOf(state.recentMessages, id));
      SaveState(state, now);
    }

    /**
     * `addMessage` as written: the local list with the message is only counted; the stored
     * messages do not change.
     */
    method AddMessage(message: Message, now: string)
      requires Valid()
      modifies this
      ensures blob == Spec.AddMessage(Ctx(), old(blob), message, now)
      ensures GetState().recentMessages == old(GetState()).recentMessages
    {
      Spec.AddMessageStored(Ctx(), blob, message, now);
      var state := GetState();
      state := state.(recentMessages := [message] + state.recentMessages);
      if |state.recentMessages| > MaxMessages {
        state := state.(recentMessages := state.recentMessages[..MaxMessages]);
      }
      UpdateConversation(message.conversationId,
                         Spec.MessageStats(message, |MessagesOf(state.recentMessages, message.conversationId)|), now);
    }

    function GetConversationMessages(conversationId: string): (r: seq<Message>)
      reads this
      ensures forall i :: 0 <= i < |r| ==> r[i].conversationId == conversationId && r[i] in GetState().recentMessages
      ensures forall j :: 0 <= j < |GetState().recentMessages| && GetState().recentMessages[j].conversationId == conversationId ==>
        GetState().recentMessages[j] in r
    {
      Spec.ConversationMessages(Ctx(), blob, conversationId)
    }

    function ExportData(): (r: string)
      reads this
      ensures Valid() ==> codec.parse(r) == Some(Spec.ObjectDocument(ToRaw(GetState())))
    {
      Spec.Export(Ctx(), blob)
    }

    method ImportData(jsonData: string, now: string) returns (ok: bool)
      requires Valid()
      modifies this
      ensures Spec.Import(Ctx(), old(blob), jsonData, now) == Spec.Imported(ok, blob)
      ensures !ok ==> blob == old(blob)
    {
      var parsed := codec.parse(jsonData);
      if parsed.None? || parsed.value.NullDocument? {
        return false;
      }
      var validatedState := ValidateAndMerge(defaultState, parsed.value.raw);
      SaveState(validatedState, now);
      return true;
    }

    method ClearAll()
      modifies this
      ensures blob == None
    {
      blob := None;
    }

    /** The hook's `clearAllData` (src/hooks/useAppState.ts:81-84): clear, then `init`. */
    method ClearAllData(now: string) returns (s: AppState)
      requires Valid()
      modifies this
      ensures s == defaultState
      ensures GetState() == Stamped(defaultState, now)
    {
      ClearAll();
      Spec.ClearThenInit(Ctx(), now);
      s := Init(now);
    }

    function GetStorageInfo(): (r: Spec.StorageInfo)
      reads this
      ensures r.hasApiKey <==> GetState().tavusSettings.apiKey != ""
      ensures r.conversationCount == |GetState().conversations| && r.messageCount == |GetState().recentMessages|
      ensures r.version == GetState().config.version && r.lastUpdated == GetState().config.lastUpdated
    {
      Spec.Info(Ctx(), blob)
    }
  }

  /** Exporting and importing through one store restores its state, restamped. */
  method ExportThenImport(store: LocalStorageManager, now: string) returns (ok: bool)
    requires store.Valid()
    modifies store
    ensures ok
    ensures store.GetState() == Stamped(old(store.GetState()), now)
  {
    Spec.ImportExportRoundTrip(store.Ctx(), store.blob, now);
    var text := store.ExportData();
    ok := store.ImportData(text, now);
  }
}
