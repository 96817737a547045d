/** functions/handlers/eventHandler.js: `handleEventQuery`. It checks the four
    preference slots, matches clubs, looks up the anchor date and then up to
    seven following days while fewer than five entries are collected, and
    formats the reply. */
module EventHandler {
  import opened Values
  import opened Clubs
  import opened Events

  const NoPreferencesReply := "I couldn't fetch events without your preferences. Please provide them."
  const NoClubsReply := "No clubs match your preferences."
  const NoEventsReply := "No events found for your requested date or the next 7 days."

  /** The loop stops once this many entries are collected. */
  const MinEntries := 5
  /** Days after the anchor that may be looked up. */
  const ExtraDays := 7

  /** The slot check `!gender || !music_preferences.length || !budget || !vibe.length`,
      evaluated left to right: `Ok(true)` when a slot is missing; reading
      `.length` of an absent or null list throws. */
  function SlotMissing(prefs: Object): (r: Outcome<bool>)
    ensures !Truthy(Get(prefs, "gender")) ==> r == Ok(true)
    ensures r == Ok(false) <==>
      && Truthy(Get(prefs, "gender")) && Truthy(Get(prefs, "budget"))
      && HasLength(Get(prefs, "music_preferences")) == Ok(true)
      && HasLength(Get(prefs, "vibe")) == Ok(true)
    ensures r.Throw? ==> HasLength(Get(prefs, "music_preferences")).Throw? || HasLength(Get(prefs, "vibe")).Throw?
  {
    if !Truthy(Get(prefs, "gender")) then Ok(true)
    else match HasLength(Get(prefs, "music_preferences"))
      case Throw => Throw
      case Ok(hasMusic) =>
        if !hasMusic then Ok(true)
        else if !Truthy(Get(prefs, "budget")) then Ok(true)
        else match HasLength(Get(prefs, "vibe"))
          case Throw => Throw
          case Ok(hasVibe) => Ok(!hasVibe)
  }

  /** The date looked up for day `offset` of the window: the query's own text
      for the anchor, JavaScript's date arithmetic (`addDays`) after it. */
  function DayDate(date: string, offset: nat, addDays: (string, nat) -> string): string {
    if offset == 0 then date else addDays(date, offset)
  }

  /** The entries of the first `n` days of the window, day by day. */
  function Collected(clubs: seq<string>, date: string, table: (string, string) -> Query<EventRow>,
                     addDays: (string, nat) -> string, n: nat): (es: seq<EventEntry>)
    ensures |es| == n * |clubs|
  {
    if n == 0 then []
    else Collected(clubs, date, table, addDays, n - 1) + EventsOn(clubs, DayDate(date, n - 1, addDays), table)
  }

  /** How many days the loop looks up, given `k` entries per day, once `n` days
      have been looked up: it stops at `MinEntries` entries or after the anchor
      and `ExtraDays` more. */
  function DaysFrom(k: nat, n: nat): (days: nat)
    requires 1 <= n <= 1 + ExtraDays
    ensures n <= days <= 1 + ExtraDays
    ensures days * k >= MinEntries || days == 1 + ExtraDays
    ensures forall d :: n <= d < days ==> d * k < MinEntries
    decreases 1 + ExtraDays - n
  {
    if n == 1 + ExtraDays || n * k >= MinEntries then n else DaysFrom(k, n + 1)
  }

  /** The days looked up by one call, as offsets from the anchor. */
  function Offsets(n: nat): (r: seq<nat>)
    ensures |r| == n && forall j :: 0 <= j < n ==> r[j] == j
  {
    seq(n, j requires 0 <= j < n => j)
  }

  lemma OffsetsStep(n: nat)
    ensures Offsets(n) + [n] == Offsets(n + 1)
  {
  }

  /** What the handler decides before formatting. */
  datatype Answer = Early(message: string) | Listed(events: seq<EventEntry>, days: nat)

  /** The handler's decision: a fixed reply when a slot is missing or no club
      matches, otherwise the entries of the days looked up. */
  function Decide(prefs: Object, date: string, rules: seq<Rule>, table: (string, string) -> Query<EventRow>,
                  addDays: (string, nat) -> string): Outcome<Answer>
  {
    match SlotMissing(prefs)
    case Throw => Throw
    case Ok(missing) =>
      if missing then Ok(Early(NoPreferencesReply))
      else match GetMatchingClubs(rules, prefs)
        case Throw => Throw
        case Ok(clubs) =>
          if clubs == [] then Ok(Early(NoClubsReply))
          else
            var days := DaysFrom(|clubs|, 1);
            Ok(Listed(Collected(clubs, date, table, addDays, days), days))
  }

  // ---------------------------------------------------------------------------
  // Reply text

  /** One entry's block. An entry carries only `club`, `tickets_link` and
      `date`, so `event_name`, `venue_name` and `min_age` read as `undefined`
      and the name, venue and age lines always show their fallbacks. */
  function EventBlock(e: EventEntry): string {
    NameLine + RenderOr(None, "Event")
    + VenueLine + RenderOr(None, "Unknown")
    + DateLine + RenderOr(Some(e.date), "N/A")
    + AgeLine + RenderOr(None, "N/A")
    + TicketsLine + RenderOr(Some(e.ticketsLink), "N/A") + "\n\n"
  }

  const NameLine := "\n      \U{1F389} "
  const VenueLine := "\n      \U{1F4CD} Venue: "
  const DateLine := "\n      \U{1F4C5} Date: "
  const AgeLine := "\n      \U{1F51E} Minimum Age: "
  const TicketsLine := "\n      \U{1F39F} Tickets: "

  function EventsHeader(date: string): string {
    "Here are some events for " + date + ":\n\n"
  }

  /** The reply for a decision. */
  function ReplyFor(a: Answer, date: string): string {
    match a
    case Early(message) => message
    case Listed(events, _) =>
      if events == [] then NoEventsReply else EventsHeader(date) + Blocks(events, EventBlock)
  }

  /** The reply `handleEventQuery` gives, or `Throw`. */
  function EventReply(prefs: Object, date: string, rules: seq<Rule>, table: (string, string) -> Query<EventRow>,
                      addDays: (string, nat) -> string): Outcome<string>
  {
    match Decide(prefs, date, rules, table, addDays)
    case Throw => Throw
    case Ok(a) => Ok(ReplyFor(a, date))
  }

  /** The reply text: the header, then `+=` of one block per entry. */
  method FormatEvents(date: string, events: seq<EventEntry>) returns (message: string)
    ensures message == EventsHeader(date) + Blocks(events, EventBlock)
  {
    message := AppendBlocks(EventsHeader(date), events, EventBlock);
  }

  // ---------------------------------------------------------------------------
  // handleEventQuery

  /** The lookups: the anchor date, then each following day while fewer than
      five entries are collected, seven at most. `queried` lists the days
      looked up, as offsets from the anchor, in the order of the lookups. */
  method CollectEvents(clubs: seq<string>, date: string, table: (string, string) -> Query<EventRow>,
                       addDays: (string, nat) -> string)
    returns (events: seq<EventEntry>, queried: seq<nat>)
    ensures events == Collected(clubs, date, table, addDays, DaysFrom(|clubs|, 1))
    ensures queried == Offsets(DaysFrom(|clubs|, 1))
  {
    ghost var k := |clubs|;
    events := GetEventsForClubs(clubs, date, table);
    queried := [0];
    assert events == Collected(clubs, date, table, addDays, 1);
    ghost var days := 1;
    if |events| < MinEntries {
      for i := 1 to 1 + ExtraDays
        invariant events == Collected(clubs, date, table, addDays, i)
        invariant |events| < MinEntries
        invariant queried == Offsets(i)
        invariant DaysFrom(k, 1) == DaysFrom(k, i)
      {
        var nextDayEvents := GetEventsForClubs(clubs, addDays(date, i), table);
        events := events + nextDayEvents;
        queried := queried + [i];
        OffsetsStep(i);
        if |events| >= MinEntries {
          days := i + 1;
          break;
        }
      }
      if |events| < MinEntries {
        days := 1 + ExtraDays;
      }
    }
    assert days == DaysFrom(k, 1);
  }

  /** `handleEventQuery(senderNumber, eventQuery, preferences)`, with the rule
      table, the `events` table and date arithmetic as parameters; `queried`
      lists the days looked up. */
  method HandleEventQuery(prefs: Object, date: string, rules: seq<Rule>,
                          table: (string, string) -> Query<EventRow>, addDays: (string, nat) -> string)
    returns (reply: Outcome<string>, queried: seq<nat>)
    ensures reply == EventReply(prefs, date, rules, table, addDays)
    ensures queried == (match Decide(prefs, date, rules, table, addDays)
                        case Ok(Listed(_, days)) => Offsets(days)
                        case _ => [])
  {
    queried := [];
    var missing := SlotMissing(prefs);
    if missing.Throw? {
      return Throw, queried;
    }
    if missing.value {
      return Ok(NoPreferencesReply), queried;
    }
    var matched := GetMatchingClubs(rules, prefs);
    if matched.Throw? {
      return Throw, queried;
    }
    var clubs := matched.value;
    if clubs == [] {
      return Ok(NoClubsReply), queried;
    }
    var events;
    events, queried := CollectEvents(clubs, date, table, addDays);
    if |events| == 0 {
      return Ok(NoEventsReply), queried;
    }
    var message := FormatEvents(date, events);
    reply := Ok(message);
  }

  // ---------------------------------------------------------------------------
  // Properties

  /** Any missing slot gives the fixed reply, with no matching and no lookup.
      Slots are read in order gender, music, budget, vibe; a list that is not
      there at all makes `.length` throw instead. */
  lemma MissingSlotShortCircuits(prefs: Object, date: string, rules: seq<Rule>,
                                 table: (string, string) -> Query<EventRow>, addDays: (string, nat) -> string)
    requires SlotMissing(prefs) == Ok(true)
    ensures Decide(prefs, date, rules, table, addDays) == Ok(Early(NoPreferencesReply))
  {
  }

  /** The four ways a slot is missing, each with the earlier slots present. */
  lemma SlotMissingCases(prefs: Object)
    ensures !Truthy(Get(prefs, "gender")) ==> SlotMissing(prefs) == Ok(true)
    ensures Truthy(Get(prefs, "gender")) && Get(prefs, "music_preferences") == Some(Arr([]))
            ==> SlotMissing(prefs) == Ok(true)
    ensures (Truthy(Get(prefs, "gender")) && HasLength(Get(prefs, "music_preferences")) == Ok(true)
             && !Truthy(Get(prefs, "budget"))) ==> SlotMissing(prefs) == Ok(true)
    ensures (Truthy(Get(prefs, "gender")) && HasLength(Get(prefs, "music_preferences")) == Ok(true)
             && Truthy(Get(prefs, "budget")) && Get(prefs, "vibe") == Some(Arr([])))
            ==> SlotMissing(prefs) == Ok(true)
    ensures Truthy(Get(prefs, "gender")) && "music_preferences" !in prefs ==> SlotMissing(prefs) == Throw
  {
  }

  /** No matched club gives the fixed reply and no lookup. */
  lemma NoClubsNoLookup(prefs: Object, date: string, rules: seq<Rule>,
                        table: (string, string) -> Query<EventRow>, addDays: (string, nat) -> string)
    requires SlotMissing(prefs) == Ok(false) && GetMatchingClubs(rules, prefs) == Ok([])
    ensures Decide(prefs, date, rules, table, addDays) == Ok(Early(NoClubsReply))
  {
  }

  /** With `k >= 1` clubs, each day looked up adds `k` entries, so the number
      of days is fixed by `k` alone: the fewest days that reach five entries,
      `ceil(5 / k)`, which is at most five. The seven-day bound is never what
      stops the loop. */
  lemma DaysForClubs(k: nat)
    requires k >= 1
    ensures DaysFrom(k, 1) <= 5
    ensures DaysFrom(k, 1) * k >= MinEntries && (DaysFrom(k, 1) - 1) * k < MinEntries
  {
    var days := DaysFrom(k, 1);
    assert days > 5 ==> 5 * k < MinEntries;
    assert days > 1 ==> (days - 1) * k < MinEntries;
  }

  /** When clubs match, the window is the anchor date and then the following
      days in order, each once; at least five entries are collected, so the
      "No events found" reply is never given. */
  lemma {:induction false} ListedWindow(prefs: Object, date: string, rules: seq<Rule>,
                                        table: (string, string) -> Query<EventRow>, addDays: (string, nat) -> string)
    requires Decide(prefs, date, rules, table, addDays).Ok?
    requires Decide(prefs, date, rules, table, addDays).value.Listed?
    ensures var a := Decide(prefs, date, rules, table, addDays).value;
      && 1 <= a.days <= 5
      && |a.events| >= MinEntries
      && ReplyFor(a, date) == EventsHeader(date) + Blocks(a.events, EventBlock)
  {
    var clubs := GetMatchingClubs(rules, prefs).value;
    DaysForClubs(|clubs|);
    var a := Decide(prefs, date, rules, table, addDays).value;
    assert |a.events| == a.days * |clubs|;
  }

  /** The entries are those of the anchor date followed by those of each next
      day, and each day contributes one entry per club, in club order. */
  lemma {:induction false} CollectedByDay(clubs: seq<string>, date: string, table: (string, string) -> Query<EventRow>,
                                          addDays: (string, nat) -> string, n: nat, d: nat, c: nat)
    requires d < n && c < |clubs|
    ensures d * |clubs| + c < |Collected(clubs, date, table, addDays, n)|
    ensures Collected(clubs, date, table, addDays, n)[d * |clubs| + c]
            == EntryFor(clubs[c], table(clubs[c], DayDate(date, d, addDays)))
  {
    var k := |clubs|;
    var prev := Collected(clubs, date, table, addDays, n - 1);
    assert |prev| == (n - 1) * k;
    if d < n - 1 {
      CollectedByDay(clubs, date, table, addDays, n - 1, d, c);
    } else {
      assert d * k + c - |prev| == c;
    }
  }

  /** The listing grows one day at a time: after `events.concat(nextDayEvents)`
      the reply lists the days already looked up, then the new day's entries. */
  lemma BlocksByDay(clubs: seq<string>, date: string, table: (string, string) -> Query<EventRow>,
                    addDays: (string, nat) -> string, n: nat)
    ensures Blocks(Collected(clubs, date, table, addDays, n + 1), EventBlock)
            == Blocks(Collected(clubs, date, table, addDays, n), EventBlock)
               + Blocks(EventsOn(clubs, DayDate(date, n, addDays), table), EventBlock)
  {
    BlocksAppend(Collected(clubs, date, table, addDays, n), EventsOn(clubs, DayDate(date, n, addDays), table), EventBlock);
  }
}
