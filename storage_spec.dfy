/**
 * What each operation of `LocalStorageManager` (src/utils/storage.ts) does to the one
 * blob stored under the key `tavus_app_data`, as functions of the blob before the call.
 * `localStorage` is the value `blob`; JSON parsing and serialisation are a `Codec`; the
 * clock is the `now` argument. The class in StorageManager is proved against these.
 */
module StorageSpec {
  import opened Wrappers
  import opened AppStateModel
  import opened History

  /**
   * What `JSON.parse` gives, as far as the store can tell: `null` (reading a key of it
   * throws), or an object seen as a partial state. Any other JSON value (a number, a
   * string, an array) has no `config` or other key, so it reads as the object without keys.
   */
  datatype Document = NullDocument | ObjectDocument(raw: RawState)

  /**
   * `JSON.parse` (None when it throws), `JSON.stringify(state)` and
   * `JSON.stringify(state, null, 2)`.
   */
  datatype Codec = Codec(
    parse: string -> Option<Document>,
    stringify: AppState -> string,
    stringifyPretty: AppState -> string)

  /**
   * The laws of JSON the store relies on: serialising a state (in either layout) and
   * parsing the text back gives an object carrying every key of that state, and the
   * compact text of an object is never empty.
   */
  ghost predicate Lawful(c: Codec) {
    && (forall s :: c.parse(c.stringify(s)) == Some(ObjectDocument(ToRaw(s))))
    && (forall s :: c.parse(c.stringifyPretty(s)) == Some(ObjectDocument(ToRaw(s))))
    && (forall s :: c.stringify(s) != "")
  }

  /** The fixed parts of one store: its codec and the time its `defaultState` was built. */
  datatype Context = Context(codec: Codec, createdAt: string)

  function Defaults(x: Context): AppState {
    DefaultState(x.createdAt)
  }

  /** `!stored`: `getItem` returned null, or the empty string. */
  predicate Absent(blob: Option<string>) {
    blob.None? || blob.value == ""
  }

  /** The parsed object in the blob, or None when the blob is absent, does not parse, or is `null`. */
  function StoredRaw(x: Context, blob: Option<string>): Option<RawState> {
    if Absent(blob) then None
    else match x.codec.parse(blob.value)
      case Some(ObjectDocument(raw)) => Some(raw)
      case _ => None
  }

  /** The stored object carries a `config` whose `version` is the current one. */
  predicate IsCurrent(x: Context, blob: Option<string>) {
    var raw := StoredRaw(x, blob);
    raw.Some? && raw.value.config.Some? && raw.value.config.value.version == Some(Version)
  }

  // ---------------------------------------------------------------------------
  // Reading and writing.

  /** `getState`: the merged stored object, or the defaults when it cannot be read. */
  function GetState(x: Context, blob: Option<string>): (r: AppState)
    ensures StoredRaw(x, blob).None? ==> r == Defaults(x)
  {
    match StoredRaw(x, blob)
    case None => Defaults(x)
    case Some(raw) => ValidateAndMerge(Defaults(x), raw)
  }

  /** `saveState`: the blob holding the state stamped with the time of the write. */
  function Saved(x: Context, s: AppState, now: string): (r: Option<string>)
    ensures r.Some?
    ensures Lawful(x.codec) ==> !Absent(r) && StoredRaw(x, r) == Some(ToRaw(Stamped(s, now)))
  {
    Some(x.codec.stringify(Stamped(s, now)))
  }

  /** What a read returns after a write: the written state, with its new `lastUpdated`. */
  lemma ReadAfterSave(x: Context, s: AppState, now: string)
    requires Lawful(x.codec)
    ensures GetState(x, Saved(x, s, now)) == Stamped(s, now)
  {
    var t := Stamped(s, now);
    assert x.codec.stringify(t) != "";
    assert x.codec.parse(x.codec.stringify(t)) == Some(ObjectDocument(ToRaw(t)));
    MergeOfCompleteState(Defaults(x), t);
  }

  /** `getState` never re-tags: a stored version comes back as it is stored. */
  lemma GetStateNeverMigrates(x: Context, blob: Option<string>, v: string)
    requires StoredRaw(x, blob).Some? && StoredRaw(x, blob).value.config.Some?
    requires StoredRaw(x, blob).value.config.value.version == Some(v)
    ensures GetState(x, blob).config.version == v
  {
  }

  /** A process's result together with the blob it leaves. */
  datatype Loaded = Loaded(state: AppState, blob: Option<string>)

  /** `migrateData`: merge, re-tag with the current version, save, return. */
  function Migrate(x: Context, raw: RawState, now: string): (r: Loaded)
    ensures r.state.config.version == Version
    ensures r.state.config.lastUpdated == ValidateAndMerge(Defaults(x), raw).config.lastUpdated
    ensures r.state == ValidateAndMerge(Defaults(x), raw).(config := r.state.config)
    ensures r.blob == Saved(x, r.state, now)
  {
    var m := Retagged(ValidateAndMerge(Defaults(x), raw));
    Loaded(m, Saved(x, m, now))
  }

  /**
   * `init`: an absent or unreadable blob, or one whose `config` is missing (reading
   * `config.version` throws), is replaced by the defaults; an old version is migrated;
   * a current one is merged and left as it is.
   */
  function Init(x: Context, blob: Option<string>, now: string): (r: Loaded)
    ensures r.state.config.version == Version
    ensures IsCurrent(x, blob) ==> r.blob == blob && r.state == GetState(x, blob)
    ensures !IsCurrent(x, blob) ==> r.blob == Saved(x, r.state, now)
    ensures StoredRaw(x, blob).None? || StoredRaw(x, blob).value.config.None? ==> r.state == Defaults(x)
    ensures StoredRaw(x, blob).Some? && StoredRaw(x, blob).value.config.Some? && !IsCurrent(x, blob) ==>
      r.state == Retagged(ValidateAndMerge(Defaults(x), StoredRaw(x, blob).value))
  {
    match StoredRaw(x, blob)
    case None => Loaded(Defaults(x), Saved(x, Defaults(x), now))
    case Some(raw) =>
      if raw.config.None? then Loaded(Defaults(x), Saved(x, Defaults(x), now))
      else if raw.config.value.version != Some(Version) then Migrate(x, raw, now)
      else Loaded(ValidateAndMerge(Defaults(x), raw), blob)
  }

  /**
   * After `init`, a read sees the current version, and sees what `init` returned, up to
   * the `lastUpdated` that a write stamps.
   */
  lemma InitThenGetState(x: Context, blob: Option<string>, now: string)
    requires Lawful(x.codec)
    ensures GetState(x, Init(x, blob, now).blob).config.version == Version
    ensures IsCurrent(x, blob) ==> GetState(x, Init(x, blob, now).blob) == Init(x, blob, now).state
    ensures !IsCurrent(x, blob) ==> GetState(x, Init(x, blob, now).blob) == Stamped(Init(x, blob, now).state, now)
  {
    var r := Init(x, blob, now);
    if !IsCurrent(x, blob) {
      ReadAfterSave(x, r.state, now);
    }
  }

  /** `clearAll` followed by `init` (the hook's `clearAllData`): the defaults, written out. */
  lemma ClearThenInit(x: Context, now: string)
    requires Lawful(x.codec)
    ensures Init(x, None, now).state == Defaults(x)
    ensures GetState(x, Init(x, None, now).blob) == Stamped(Defaults(x), now)
  {
    ReadAfterSave(x, Defaults(x), now);
  }

  // ---------------------------------------------------------------------------
  // Mutators: read the state, change one part, save.

  /** `updateUserPreferences`: the whole spread section is written, not only the patch. */
  function UpdateUserPreferences(x: Context, blob: Option<string>, p: PartialPreferences, now: string): (r: Option<string>)
    ensures r.Some?
    ensures Lawful(x.codec) ==>
      StoredRaw(x, r).Some? && StoredRaw(x, r).value.userPreferences == Some(PreferenceKeys(OverridePreferences(GetState(x, blob).userPreferences, p)))
  {
    var st := GetState(x, blob);
    Saved(x, st.(userPreferences := OverridePreferences(st.userPreferences, p)), now)
  }

  /** `updateTavusSettings`: the whole spread section is written, not only the patch. */
  function UpdateTavusSettings(x: Context, blob: Option<string>, p: PartialTavusSettings, now: string): (r: Option<string>)
    ensures r.Some?
    ensures Lawful(x.codec) ==>
      StoredRaw(x, r).Some? && StoredRaw(x, r).value.tavusSettings == Some(TavusSettingKeys(OverrideTavusSettings(GetState(x, blob).tavusSettings, p)))
  {
    var st := GetState(x, blob);
    Saved(x, st.(tavusSettings := OverrideTavusSettings(st.tavusSettings, p)), now)
  }

  /** The section updates change that section by the spread and leave every other part. */
  lemma UpdateSectionsStored(x: Context, blob: Option<string>, p: PartialPreferences, q: PartialTavusSettings, now: string)
    requires Lawful(x.codec)
    ensures GetState(x, UpdateUserPreferences(x, blob, p, now)) ==
      Stamped(GetState(x, blob), now).(userPreferences := OverridePreferences(GetState(x, blob).userPreferences, p))
    ensures GetState(x, UpdateTavusSettings(x, blob, q, now)) ==
      Stamped(GetState(x, blob), now).(tavusSettings := OverrideTavusSettings(GetState(x, blob).tavusSettings, q))
  {
    var st := GetState(x, blob);
    ReadAfterSave(x, st.(userPreferences := OverridePreferences(st.userPreferences, p)), now);
    ReadAfterSave(x, st.(tavusSettings := OverrideTavusSettings(st.tavusSettings, q)), now);
  }

  /** `addConversation`: always writes, and the stored list holds the record. */
  function AddConversation(x: Context, blob: Option<string>, c: Conversation, now: string): (r: Option<string>)
    ensures r.Some?
    ensures Lawful(x.codec) ==> c in GetState(x, r).conversations
  {
    var st := GetState(x, blob);
    Saved(x, st.(conversations := WithConversation(st.conversations, c)), now)
  }

  /**
   * After `addConversation` the stored list is the old one with the record replaced in
   * place or put in front and cut to fifty; nothing else but `lastUpdated` changes.
   */
  lemma AddConversationStored(x: Context, blob: Option<string>, c: Conversation, now: string)
    requires Lawful(x.codec)
    ensures GetState(x, AddConversation(x, blob, c, now)) ==
      Stamped(GetState(x, blob), now).(conversations := WithConversation(GetState(x, blob).conversations, c))
    ensures |GetState(x, blob).conversations| <= MaxConversations ==>
      |GetState(x, AddConversation(x, blob, c, now)).conversations| <= MaxConversations
  {
    var st := GetState(x, blob);
    ReadAfterSave(x, st.(conversations := WithConversation(st.conversations, c)), now);
  }

  /** `updateConversation`: an unknown id writes nothing. */
  function UpdateConversation(x: Context, blob: Option<string>, id: string, u: PartialConversation, now: string): (r: Option<string>)
    ensures IndexOf(GetState(x, blob).conversations, id) < 0 ==> r == blob
  {
    var st := GetState(x, blob);
    if IndexOf(st.conversations, id) >= 0 then
      Saved(x, st.(conversations := WithConversationUpdated(st.conversations, id, u)), now)
    else blob
  }

  lemma UpdateConversationStored(x: Context, blob: Option<string>, id: string, u: PartialConversation, now: string)
    requires Lawful(x.codec)
    requires IndexOf(GetState(x, blob).conversations, id) >= 0
    ensures GetState(x, UpdateConversation(x, blob, id, u, now)) ==
      Stamped(GetState(x, blob), now).(conversations := WithConversationUpdated(GetState(x, blob).conversations, id, u))
  {
    var st := GetState(x, blob);
    ReadAfterSave(x, st.(conversations := WithConversationUpdated(st.conversations, id, u)), now);
  }

  /** `deleteConversation`: always writes, and nothing stored carries the id afterwards. */
  function DeleteConversation(x: Context, blob: Option<string>, id: string, now: string): (r: Option<string>)
    ensures r.Some?
    ensures Lawful(x.codec) ==>
      (forall i :: 0 <= i < |GetState(x, r).conversations| ==> GetState(x, r).conversations[i].id != id) &&
      (forall i :: 0 <= i < |GetState(x, r).recentMessages| ==> GetState(x, r).recentMessages[i].conversationId != id)
  {
    var st := GetState(x, blob);
    Saved(x, st.(conversations := WithoutConversation(st.conversations, id),
                 recentMessages := WithoutMessagesOf(st.recentMessages, id)), now)
  }

  /**
   * After `deleteConversation(id)` no record and no message of `id` is stored, everything
   * else is kept in order, and the state is written (and restamped) even when nothing matched.
   */
  lemma DeleteConversationCascades(x: Context, blob: Option<string>, id: string, now: string)
    requires Lawful(x.codec)
    ensures var after := GetState(x, DeleteConversation(x, blob, id, now));
      && (forall i :: 0 <= i < |after.conversations| ==> after.conversations[i].id != id)
      && (forall i :: 0 <= i < |after.recentMessages| ==> after.recentMessages[i].conversationId != id)
      && after == Stamped(GetState(x, blob), now).(
           conversations := WithoutConversation(GetState(x, blob).conversations, id),
           recentMessages := WithoutMessagesOf(GetState(x, blob).recentMessages, id))
    ensures var st := GetState(x, blob);
      (forall i :: 0 <= i < |st.conversations| ==> st.conversations[i].id != id) &&
      (forall i :: 0 <= i < |st.recentMessages| ==> st.recentMessages[i].conversationId != id) ==>
      GetState(x, DeleteConversation(x, blob, id, now)) == Stamped(st, now)
  {
    var st := GetState(x, blob);
    var next := st.(conversations := WithoutConversation(st.conversations, id),
                    recentMessages := WithoutMessagesOf(st.recentMessages, id));
    ReadAfterSave(x, next, now);
    var after := Stamped(next, now);
    forall i | 0 <= i < |after.conversations| ensures after.conversations[i].id != id {
      assert after.conversations[i] in WithoutConversation(st.conversations, id);
    }
    forall i | 0 <= i < |after.recentMessages| ensures after.recentMessages[i].conversationId != id {
      assert after.recentMessages[i] in WithoutMessagesOf(st.recentMessages, id);
    }
    if (forall i :: 0 <= i < |st.conversations| ==> st.conversations[i].id != id) &&
       (forall i :: 0 <= i < |st.recentMessages| ==> st.recentMessages[i].conversationId != id) {
      DeleteUnknownChangesNothing(st.conversations, st.recentMessages, id);
    }
  }

  /** The update `addMessage` hands to `updateConversation`. */
  function MessageStats(m: Message, count: int): PartialConversation {
    NoConversationKeys.(lastMessageAt := Some(m.timestamp), messageCount := Some(count))
  }

  /**
   * `addMessage` as written: the message is put in front of a local copy of the list, cut
   * to two hundred, and only used to count the conversation's messages; then
   * `updateConversation` reads the store afresh and saves the conversation change alone.
   */
  function AddMessage(x: Context, blob: Option<string>, m: Message, now: string): (r: Option<string>)
    ensures Lawful(x.codec) ==> GetState(x, r).recentMessages == GetState(x, blob).recentMessages
  {
    var recent := PushMessage(GetState(x, blob).recentMessages, m);
    UpdateConversation(x, blob, m.conversationId, MessageStats(m, |MessagesOf(recent, m.conversationId)|), now)
  }

  /**
   * What `addMessage` persists: the owning conversation gets the message's time and the
   * count of its messages in the local list; the stored messages stay as they were; an
   * unknown conversation means nothing is written.
   */
  lemma AddMessageStored(x: Context, blob: Option<string>, m: Message, now: string)
    requires Lawful(x.codec)
    ensures var st := GetState(x, blob);
      IndexOf(st.conversations, m.conversationId) < 0 ==> AddMessage(x, blob, m, now) == blob
    ensures var st := GetState(x, blob);
      var i := IndexOf(st.conversations, m.conversationId);
      var after := GetState(x, AddMessage(x, blob, m, now));
      i >= 0 ==>
        && after.recentMessages == st.recentMessages
        && |after.conversations| == |st.conversations|
        && after.conversations[i].lastMessageAt == m.timestamp
        && after.conversations[i].messageCount == |MessagesOf(PushMessage(st.recentMessages, m), m.conversationId)|
        && (forall j :: 0 <= j < |st.conversations| && j != i ==> after.conversations[j] == st.conversations[j])
        && after == Stamped(st, now).(conversations := WithConversationUpdated(st.conversations, m.conversationId,
             MessageStats(m, |MessagesOf(PushMessage(st.recentMessages, m), m.conversationId)|)))
  {
    var st := GetState(x, blob);
    var recent := PushMessage(st.recentMessages, m);
    var u := MessageStats(m, |MessagesOf(recent, m.conversationId)|);
    if IndexOf(st.conversations, m.conversationId) >= 0 {
      UpdateConversationStored(x, blob, m.conversationId, u, now);
    }
  }

  /**
   * `addMessage` with the message saved as well (see the findings): the local list becomes
   * the stored one, and the conversation is updated in that same state.
   */
  function AddMessageIntended(x: Context, blob: Option<string>, m: Message, now: string): (r: Option<string>)
    ensures Lawful(x.codec) ==> GetState(x, r).recentMessages == PushMessage(GetState(x, blob).recentMessages, m)
  {
    var st := GetState(x, blob);
    var recent := PushMessage(st.recentMessages, m);
    var u := MessageStats(m, |MessagesOf(recent, m.conversationId)|);
    Saved(x, st.(recentMessages := recent, conversations := WithConversationUpdated(st.conversations, m.conversationId, u)), now)
  }

  /**
   * With the message saved, the stored history starts with it and is cut to two hundred,
   * and the conversation's `messageCount` is the number of its stored messages.
   */
  lemma AddMessageIntendedStored(x: Context, blob: Option<string>, m: Message, now: string)
    requires Lawful(x.codec)
    ensures var st := GetState(x, blob);
      var after := GetState(x, AddMessageIntended(x, blob, m, now));
      && after.recentMessages == PushMessage(st.recentMessages, m)
      && after.recentMessages[0] == m
      && (|st.recentMessages| <= MaxMessages ==> |after.recentMessages| <= MaxMessages)
      && (IndexOf(st.conversations, m.conversationId) >= 0 ==>
            && after.conversations[IndexOf(st.conversations, m.conversationId)].lastMessageAt == m.timestamp
            && after.conversations[IndexOf(st.conversations, m.conversationId)].messageCount
               == |MessagesOf(after.recentMessages, m.conversationId)|)
  {
    var st := GetState(x, blob);
    var recent := PushMessage(st.recentMessages, m);
    var u := MessageStats(m, |MessagesOf(recent, m.conversationId)|);
    ReadAfterSave(x, st.(recentMessages := recent, conversations := WithConversationUpdated(st.conversations, m.conversationId, u)), now);
  }

  // The example session: a conversation "c1", then a message "m1" for it, on an empty store.
  const ExampleConversation := Conversation("c1", "Visit", "T0", "T0", 0, Active, None)
  const ExampleMessage := Message("m1", "c1", "hi", User, "T1", None)

  /** As written, the example session stores the conversation's new time and count but not the message. */
  lemma AddMessageDropsTheMessage(x: Context)
    requires Lawful(x.codec)
    ensures var b1 := AddConversation(x, None, ExampleConversation, "T0");
      var after := GetState(x, AddMessage(x, b1, ExampleMessage, "T1"));
      && after.conversations[0].id == "c1"
      && after.conversations[0].lastMessageAt == "T1"
      && after.conversations[0].messageCount == 1
      && after.recentMessages == []
  {
    var b1 := AddConversation(x, None, ExampleConversation, "T0");
    AddConversationStored(x, None, ExampleConversation, "T0");
    assert GetState(x, b1).conversations == [ExampleConversation];
    AddMessageStored(x, b1, ExampleMessage, "T1");
    assert MessagesOf([ExampleMessage], "c1") == [ExampleMessage];
  }

  /** With the message saved, the same session stores it first in the history. */
  lemma AddMessageIntendedStoresTheMessage(x: Context)
    requires Lawful(x.codec)
    ensures var b1 := AddConversation(x, None, ExampleConversation, "T0");
      var after := GetState(x, AddMessageIntended(x, b1, ExampleMessage, "T1"));
      && after.conversations[0].id == "c1"
      && after.conversations[0].lastMessageAt == "T1"
      && after.conversations[0].messageCount == 1
      && after.recentMessages == [ExampleMessage]
  {
    var b1 := AddConversation(x, None, ExampleConversation, "T0");
    AddConversationStored(x, None, ExampleConversation, "T0");
    assert GetState(x, b1).conversations == [ExampleConversation];
    AddMessageIntendedStored(x, b1, ExampleMessage, "T1");
    assert MessagesOf([ExampleMessage], "c1") == [ExampleMessage];
  }

  // ---------------------------------------------------------------------------
  // Queries, export, import.

  /** `getConversationMessages`: exactly the stored messages of that conversation. */
  function ConversationMessages(x: Context, blob: Option<string>, id: string): (r: seq<Message>)
    ensures forall i :: 0 <= i < |r| ==> r[i].conversationId == id && r[i] in GetState(x, blob).recentMessages
    ensures forall j :: 0 <= j < |GetState(x, blob).recentMessages| && GetState(x, blob).recentMessages[j].conversationId == id ==>
      GetState(x, blob).recentMessages[j] in r
  {
    MessagesOf(GetState(x, blob).recentMessages, id)
  }

  /** `exportData`: the current state, pretty-printed. */
  function Export(x: Context, blob: Option<string>): (r: string)
    ensures Lawful(x.codec) ==> x.codec.parse(r) == Some(ObjectDocument(ToRaw(GetState(x, blob))))
  {
    x.codec.stringifyPretty(GetState(x, blob))
  }

  datatype Imported = Imported(ok: bool, blob: Option<string>)

  /**
   * `importData`: text that does not parse to an object (a parse error, or `null`, whose
   * merge throws) is refused and the blob kept; anything else is merged and saved.
   */
  function Import(x: Context, blob: Option<string>, text: string, now: string): (r: Imported)
    ensures !r.ok <==> x.codec.parse(text).None? || x.codec.parse(text).value.NullDocument?
    ensures !r.ok ==> r.blob == blob
    ensures r.ok ==> r.blob == Saved(x, ValidateAndMerge(Defaults(x), x.codec.parse(text).value.raw), now)
  {
    match x.codec.parse(text)
    case Some(ObjectDocument(raw)) => Imported(true, Saved(x, ValidateAndMerge(Defaults(x), raw), now))
    case _ => Imported(false, blob)
  }

  /** Importing what was just exported succeeds and restores the same state, restamped. */
  lemma ImportExportRoundTrip(x: Context, blob: Option<string>, now: string)
    requires Lawful(x.codec)
    ensures Import(x, blob, Export(x, blob), now).ok
    ensures GetState(x, Import(x, blob, Export(x, blob), now).blob) == Stamped(GetState(x, blob), now)
  {
    var st := GetState(x, blob);
    assert x.codec.parse(x.codec.stringifyPretty(st)) == Some(ObjectDocument(ToRaw(st)));
    MergeOfCompleteState(Defaults(x), st);
    ReadAfterSave(x, st, now);
  }

  // ---------------------------------------------------------------------------
  // Storage info.

  /** Bytes of the UTF-8 encoding of one code point. */
  function Utf8Width(c: char): (n: nat)
    ensures 1 <= n <= 4
    ensures (c as int < 0x80) <==> n == 1
  {
    if c as int < 0x80 then 1
    else if c as int < 0x800 then 2
    else if c as int < 0x10000 then 3
    else 4
  }

  /** `new Blob([text]).size`: the length of the UTF-8 encoding of `text`. */
  function Utf8Size(s: string): (n: nat)
    ensures |s| <= n <= 4 * |s|
    ensures (forall i :: 0 <= i < |s| ==> s[i] as int < 0x80) ==> n == |s|
  {
    if s == [] then 0 else Utf8Width(s[0]) + Utf8Size(s[1..])
  }

  /** `Math.round(bytes / 1024)`: the nearest whole number of kibibytes, halves rounded up. */
  function RoundedKB(bytes: nat): (k: nat)
    ensures k * 1024 <= bytes + 512 < k * 1024 + 1024
  {
    (bytes + 512) / 1024
  }

  datatype StorageInfo = StorageInfo(
    version: string,
    lastUpdated: string,
    conversationCount: nat,
    messageCount: nat,
    dataSizeKB: nat,
    hasApiKey: bool)

  /** `getStorageInfo`: a summary of the current state; `hasApiKey` is `!!apiKey`. */
  function Info(x: Context, blob: Option<string>): (r: StorageInfo)
    ensures r.hasApiKey <==> GetState(x, blob).tavusSettings.apiKey != ""
    ensures r.conversationCount == |GetState(x, blob).conversations|
    ensures r.messageCount == |GetState(x, blob).recentMessages|
    ensures r.version == GetState(x, blob).config.version && r.lastUpdated == GetState(x, blob).config.lastUpdated
    ensures r.dataSizeKB * 1024 <= Utf8Size(x.codec.stringify(GetState(x, blob))) + 512 < r.dataSizeKB * 1024 + 1024
  {
    var st := GetState(x, blob);
    StorageInfo(st.config.version, st.config.lastUpdated, |st.conversations|, |st.recentMessages|,
                RoundedKB(Utf8Size(x.codec.stringify(st))), st.tavusSettings.apiKey != "")
  }
}
