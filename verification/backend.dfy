/** What a turn of the bot changes outside itself: the Firebase database
    (per-user chat history and preference record, functions/firebase.js) and
    the WhatsApp messages sent (functions/metaApi.js). The database is either
    reachable for the whole turn or every call to it throws. */
module Backend {
  import opened Values

  /** A chat-history record as `saveChatMessage` writes it; the timestamp is
      not modelled. */
  datatype ChatEntry = ChatEntry(role: string, content: string)

  /** A message handed to `sendWhatsAppMessage`. */
  datatype Outgoing = Outgoing(to: string, body: string)

  class World {
    var chatHistory: map<string, seq<ChatEntry>>
    var preferences: map<string, Object>
    /** Every message sent so far, oldest first. */
    var outbox: seq<Outgoing>
    const storeUp: bool

    constructor (storeUp: bool, chatHistory: map<string, seq<ChatEntry>>, preferences: map<string, Object>)
      ensures this.storeUp == storeUp && this.chatHistory == chatHistory && this.preferences == preferences
      ensures outbox == []
    {
      this.storeUp := storeUp;
      this.chatHistory := chatHistory;
      this.preferences := preferences;
      outbox := [];
    }

    /** A user's history, `[]` when nothing is stored. */
    function HistoryOf(user: string): seq<ChatEntry>
      reads this
    {
      if user in chatHistory then chatHistory[user] else []
    }

    /** `await getPreferences(user) || {}`: the stored record, `{}` when none is stored. */
    function StoredPreferences(user: string): (prefs: Object)
      reads this
      ensures user in preferences ==> prefs == preferences[user]
      ensures user !in preferences ==> prefs == map[]
    {
      if user in preferences then preferences[user] else map[]
    }

    /** `getChatHistory(user)`: reads the history; throws when the database is unreachable. */
    method GetChatHistory(user: string) returns (r: Outcome<seq<ChatEntry>>)
      ensures r.Throw? <==> !storeUp
      ensures r.Ok? ==> r.value == HistoryOf(user)
    {
      if !storeUp {
        return Throw;
      }
      r := Ok(HistoryOf(user));
    }

    /** `getPreferences(user) || {}`; throws when the database is unreachable. */
    method GetPreferences(user: string) returns (r: Outcome<Object>)
      ensures r.Throw? <==> !storeUp
      ensures r.Ok? ==> r.value == StoredPreferences(user)
    {
      if !storeUp {
        return Throw;
      }
      r := Ok(StoredPreferences(user));
    }

    /** `saveChatMessage(user, role, content)`: appends one record to the
        user's history and touches nothing else. */
    method SaveChatMessage(user: string, role: string, content: string) returns (ok: bool)
      modifies this
      ensures ok == storeUp
      ensures ok ==> chatHistory == old(chatHistory)[user := old(HistoryOf(user)) + [ChatEntry(role, content)]]
      ensures !ok ==> chatHistory == old(chatHistory)
      ensures preferences == old(preferences) && outbox == old(outbox)
    {
      ok := storeUp;
      if ok {
        chatHistory := chatHistory[user := HistoryOf(user) + [ChatEntry(role, content)]];
      }
    }

    /** `savePreferences(user, prefs)`: replaces the user's record. */
    method SavePreferences(user: string, prefs: Object) returns (ok: bool)
      modifies this
      ensures ok == storeUp
      ensures ok ==> preferences == old(preferences)[user := prefs]
      ensures !ok ==> preferences == old(preferences)
      ensures chatHistory == old(chatHistory) && outbox == old(outbox)
    {
      ok := storeUp;
      if ok {
        preferences := preferences[user := prefs];
      }
    }

    /** `sendWhatsAppMessage(to, body)`: a failed delivery is caught and
        logged inside, so the call never throws. */
    method Send(to: string, body: string)
      modifies this
      ensures outbox == old(outbox) + [Outgoing(to, body)]
      ensures chatHistory == old(chatHistory) && preferences == old(preferences)
    {
      outbox := outbox + [Outgoing(to, body)];
    }
  }

  /** `{ ...stored, ...extracted }`: every key of `extracted` takes its
      extracted value, even `""` or `[]`; every other stored key is kept. */
  function Merge(stored: Object, extracted: Object): (merged: Object)
    ensures merged.Keys == stored.Keys + extracted.Keys
    ensures forall k :: k in extracted ==> merged[k] == extracted[k]
    ensures forall k :: k in stored && k !in extracted ==> merged[k] == stored[k]
  {
    stored + extracted
  }

  /** Merging is last-writer-wins: merging twice is merging the union, later
      values first. */
  lemma MergeTwice(stored: Object, first: Object, second: Object)
    ensures Merge(Merge(stored, first), second) == Merge(stored, Merge(first, second))
  {
  }

  /** Merging what is already stored changes nothing. */
  lemma MergeStoredIsIdentity(stored: Object, extracted: Object)
    requires forall k :: k in extracted ==> k in stored && stored[k] == extracted[k]
    ensures Merge(stored, extracted) == stored
  {
  }
}
