/** functions/responseProcessor.js: `processAndSendResponse`, one turn of the
    bot. The two model replies, `JSON.parse`, the rule table, the two
    Supabase tables and date arithmetic are parameters. */
module ResponseProcessor {
  import opened Values
  import opened Llm
  import opened Clubs
  import opened Events
  import opened Gpt
  import opened EventHandler
  import opened ClubHandler
  import opened Backend

  const ErrorReply := "An error occurred. Please try again later."

  /** The message a turn sends: the event reply when the model says the user
      wants events (built from the stored record), otherwise the club reply
      for the merged record; the error reply when the database is unreachable
      or a handler throws. */
  function TurnReply(storeUp: bool, stored: Object, query: EventQuery, extracted: Object, rules: seq<Rule>,
                     events: (string, string) -> Query<EventRow>, addDays: (string, nat) -> string,
                     venues: seq<string> -> Query<VenueRow>): string
  {
    if !storeUp then ErrorReply
    else
      var reply := if query.wantsEvents then EventReply(stored, query.date, rules, events, addDays)
                   else ClubReply(rules, Merge(stored, extracted), venues);
      if reply.Ok? then reply.value else ErrorReply
  }

  /** `processAndSendResponse(senderNumber, userMessage)`. Exactly one message
      is sent, to the sender. The user's message is saved to the history
      before anything else is decided; the preference record is rewritten only
      on the club path, and then with the extraction spread over the stored
      record. */
  method ProcessAndSendResponse(w: World, sender: string, userMessage: string,
                                eventReply: LlmReply, eventParse: string -> Option<EventQuery>,
                                prefsReply: LlmReply, prefsParse: string -> Option<Object>,
                                rules: seq<Rule>, events: (string, string) -> Query<EventRow>,
                                addDays: (string, nat) -> string, venues: seq<string> -> Query<VenueRow>)
    modifies w
    ensures var query := ExtractEventQuery(eventReply, eventParse);
      w.outbox == old(w.outbox) + [Outgoing(sender, TurnReply(w.storeUp, old(w.StoredPreferences(sender)), query,
                                                             ExtractPreferences(prefsReply, prefsParse),
                                                             rules, events, addDays, venues))]
    ensures w.storeUp ==>
      w.chatHistory == old(w.chatHistory)[sender := old(w.HistoryOf(sender)) + [ChatEntry("user", userMessage)]]
    ensures !w.storeUp ==> w.chatHistory == old(w.chatHistory) && w.preferences == old(w.preferences)
    ensures ExtractEventQuery(eventReply, eventParse).wantsEvents ==> w.preferences == old(w.preferences)
    ensures w.storeUp && !ExtractEventQuery(eventReply, eventParse).wantsEvents ==>
      w.preferences == old(w.preferences)[sender := Merge(old(w.StoredPreferences(sender)),
                                                          ExtractPreferences(prefsReply, prefsParse))]
  {
    var reply: Outcome<string> := Throw;
    var history := w.GetChatHistory(sender);
    if history.Ok? {
      var stored := w.GetPreferences(sender);
      if stored.Ok? {
        var saved := w.SaveChatMessage(sender, "user", userMessage);
        if saved {
          var query := ExtractEventQuery(eventReply, eventParse);
          if query.wantsEvents {
            var eventResponse, _ := HandleEventQuery(stored.value, query.date, rules, events, addDays);
            reply := eventResponse;
          } else {
            var extracted := ExtractPreferences(prefsReply, prefsParse);
            var updated := Merge(stored.value, extracted);
            saved := w.SavePreferences(sender, updated);
            if saved {
              var clubResponse, _ := HandleClubRecommendations(rules, updated, venues);
              reply := clubResponse;
            }
          }
        }
      }
    }
    w.Send(sender, if reply.Ok? then reply.value else ErrorReply);
  }

  /** The all-empty fallback extraction erases the four stored slots and keeps
      every other stored key. */
  lemma FallbackErasesSlots(stored: Object)
    ensures var merged := Merge(stored, NoPreferences);
      && merged["gender"] == Str("") && merged["budget"] == Str("")
      && merged["music_preferences"] == Arr([]) && merged["vibe"] == Arr([])
      && forall k :: k in stored && k !in NoPreferences.Keys ==> merged[k] == stored[k]
  {
  }

  /** After a failed extraction the club path finds nothing: the erased music
      list matches no rule, so the user is told no club matches. */
  lemma FallbackFindsNoClubs(stored: Object, rules: seq<Rule>, venues: seq<string> -> Query<VenueRow>)
    ensures ClubReply(rules, Merge(stored, NoPreferences), venues) == Ok(NoMatchReply)
  {
    var merged := Merge(stored, NoPreferences);
    if rules != [] {
      var p := ProfileOf(merged).value;
      assert p.music == [];
      EmptyMusicOrVibeMatchesNothing(rules, p);
    }
  }

  /** After a failed extraction has been saved, an event request is refused
      for want of preferences: the erased gender is falsy. */
  lemma FallbackRefusesEvents(stored: Object, date: string, rules: seq<Rule>,
                              events: (string, string) -> Query<EventRow>, addDays: (string, nat) -> string)
    ensures EventReply(Merge(stored, NoPreferences), date, rules, events, addDays) == Ok(NoPreferencesReply)
  {
    assert !Truthy(Get(Merge(stored, NoPreferences), "gender"));
  }
}
