/** functions/langgraph/nodes/profileContextNode.js: the slot-filling node of
    the conversation graph. It asks the model for a location and a date,
    spreads them over the stored record, saves it, and then either asks for
    what is still missing or sends the venue questionnaire. The model's reply
    and `JSON.parse` are parameters. */
module ProfileContext {
  import opened Values
  import opened Llm
  import opened Backend

  /** The node every path hands control to. */
  const NextNode := "profileContext"

  const FailureReply := "Oops! Something went wrong. Try again later."
  const NotUnderstoodReply := "Sorry, I couldn't understand your request. Can you try again?"

  const LocationSlot := "location (area)"
  const DateSlot := "date"

  /** The questionnaire sent once both slots are filled: a greeting, then
      ten numbered kinds of venue. */
  const Questionnaire := QuestionnaireGreeting + QuestionnaireOptions

  const QuestionnaireGreeting :=
    "\n" + "Alright, let\U{2019}s customize your perfect night out! \U{1F57A}\U{1F483} Answer these quick-fire questions, and I\U{2019}ll find the best spot for you! \U{1F680}\n"

  const QuestionnaireOptions :=
    "\n"
    + "What\U{2019}s your type of place for a night out? \U{1F914}\n"
    + "1\U{FE0F}\U{20E3} Cocktail Bar\U{1F942}  \n"
    + "2\U{FE0F}\U{20E3} Party/Club vibe Bar \U{1F389}  \n"
    + "3\U{FE0F}\U{20E3} Lounge Bar \U{1FA9E}  \n"
    + "4\U{FE0F}\U{20E3} Sports Bar \U{26BD}  \n"
    + "5\U{FE0F}\U{20E3} High End \U{2728}  \n"
    + "6\U{FE0F}\U{20E3} Rooftop with Views \U{1F307}  \n"
    + "7\U{FE0F}\U{20E3} Underground/Speakeasy\U{1F378}  \n"
    + "8\U{FE0F}\U{20E3} Elegant \U{1F3DB}\U{FE0F}  \n"
    + "9\U{FE0F}\U{20E3} Instagrammable/Trendy \U{1F4F8}  \n"
    + "\U{1F51F} Shisha/Hookah Bar \U{1F4A8}  \n"
    + "\U{1F449} You can pick up to 3 options.\n    "

  /** The slots still to ask for, location first. */
  function MissingDetails(prefs: Object): (missing: seq<string>)
    ensures LocationSlot in missing <==> !Truthy(Get(prefs, "location"))
    ensures DateSlot in missing <==> !Truthy(Get(prefs, "date"))
    ensures forall i :: 0 <= i < |missing| ==> missing[i] == LocationSlot || missing[i] == DateSlot
    ensures |missing| <= 2 && (|missing| == 2 ==> missing == [LocationSlot, DateSlot])
  {
    (if Truthy(Get(prefs, "location")) then [] else [LocationSlot])
    + (if Truthy(Get(prefs, "date")) then [] else [DateSlot])
  }

  /** The `missingDetails` array, grown by one `push` per falsy slot. */
  method CollectMissing(prefs: Object) returns (missing: seq<string>)
    ensures missing == MissingDetails(prefs)
  {
    missing := [];
    if !Truthy(Get(prefs, "location")) {
      missing := missing + [LocationSlot];
    }
    if !Truthy(Get(prefs, "date")) {
      missing := missing + [DateSlot];
    }
  }

  /** `items.join(sep)`. */
  function Join(items: seq<string>, sep: string): (r: string)
    ensures |items| == 1 ==> r == items[0]
    ensures |items| == 2 ==> r == items[0] + sep + items[1]
  {
    if items == [] then ""
    else if |items| == 1 then items[0]
    else items[0] + sep + Join(items[1..], sep)
  }

  /** The prompt for the missing slots. */
  function MissingPrompt(missing: seq<string>): string {
    "Seems exciting! Any preferences on the " + Join(missing, " and ") + "? \U{1F4C5}\U{1F4CD}"
  }

  /** The message the node sends. */
  function NodeReply(storeUp: bool, stored: Object, reply: LlmReply, parse: string -> Option<Object>): string {
    if !storeUp || reply.Threw? then FailureReply
    else match parse(Trim(reply.content))
      case None => NotUnderstoodReply
      case Some(extracted) =>
        var missing := MissingDetails(Merge(stored, extracted));
        if missing != [] then MissingPrompt(missing) else Questionnaire
  }

  /** `profileContextNode({ senderNumber, userMessage })`. Exactly one
      message is sent, and the record is saved only when the reply parses,
      with the extraction spread over the stored record. */
  method ProfileContextNode(w: World, sender: string, reply: LlmReply, parse: string -> Option<Object>)
    returns (next: string)
    modifies w
    ensures next == NextNode
    ensures w.outbox == old(w.outbox) + [Outgoing(sender, NodeReply(w.storeUp, old(w.StoredPreferences(sender)), reply, parse))]
    ensures w.chatHistory == old(w.chatHistory)
    ensures w.storeUp && reply.Replied? && parse(Trim(reply.content)).Some? ==>
      w.preferences == old(w.preferences)[sender := Merge(old(w.StoredPreferences(sender)), parse(Trim(reply.content)).value)]
    ensures !(w.storeUp && reply.Replied? && parse(Trim(reply.content)).Some?) ==> w.preferences == old(w.preferences)
  {
    next := NextNode;
    var message := FailureReply;
    var stored := w.GetPreferences(sender);
    if stored.Ok? && reply.Replied? {
      var extracted := parse(Trim(reply.content));
      if extracted.None? {
        message := NotUnderstoodReply;
      } else {
        var userPreferences := Merge(stored.value, extracted.value);
        var saved := w.SavePreferences(sender, userPreferences);
        if saved {
          var missing := CollectMissing(userPreferences);
          if |missing| > 0 {
            message := MissingPrompt(missing);
          } else {
            message := Questionnaire;
          }
        }
      }
    }
    w.Send(sender, message);
  }

  /** The three prompts: a missing location, a missing date, or both, joined
      with " and " in that order. */
  lemma PromptForLocation()
    ensures MissingPrompt([LocationSlot]) == "Seems exciting! Any preferences on the location (area)? \U{1F4C5}\U{1F4CD}"
  {
  }

  lemma PromptForDate()
    ensures MissingPrompt([DateSlot]) == "Seems exciting! Any preferences on the date? \U{1F4C5}\U{1F4CD}"
  {
  }

  lemma PromptForBoth()
    ensures MissingPrompt([LocationSlot, DateSlot])
            == "Seems exciting! Any preferences on the location (area) and date? \U{1F4C5}\U{1F4CD}"
  {
  }

  /** The questionnaire is sent exactly when the reply parses and the merged
      record has a truthy location and a truthy date. */
  lemma QuestionnaireOnlyWhenComplete(storeUp: bool, stored: Object, reply: LlmReply, parse: string -> Option<Object>)
    ensures NodeReply(storeUp, stored, reply, parse) == Questionnaire <==>
      && storeUp && reply.Replied? && parse(Trim(reply.content)).Some?
      && Truthy(Get(Merge(stored, parse(Trim(reply.content)).value), "location"))
      && Truthy(Get(Merge(stored, parse(Trim(reply.content)).value), "date"))
  {
    assert QuestionnaireGreeting[0] == '\n';
    assert Questionnaire[0] == '\n';
    assert FailureReply == "Oops! Something went wrong. Try again later.";
    assert NotUnderstoodReply == "Sorry, I couldn't understand your request. Can you try again?";
    forall missing: seq<string> ensures MissingPrompt(missing)[0] == 'S' {
    }
  }
}
