/** functions/events.js: the fallback of `extractEventQuery` and the per-club
    lookup loop of `getEventsForClubs`. The `events` table is a parameter. */
module Events {
  import opened Values
  import opened Llm

  /** What the model says about a message: whether it asks for events, and for which date. */
  datatype EventQuery = EventQuery(wantsEvents: bool, date: string)

  const NoEventQuery := EventQuery(false, "")

  /** `extractEventQuery`, with the model's reply and `JSON.parse` as parameters. */
  function ExtractEventQuery(reply: LlmReply, parse: string -> Option<EventQuery>): (q: EventQuery)
    ensures reply.Threw? ==> q == NoEventQuery
    ensures reply.Replied? && !Braced(Trim(reply.content)) ==> q == NoEventQuery
    ensures reply.Replied? && Braced(Trim(reply.content)) && parse(Trim(reply.content)).None? ==> q == NoEventQuery
    ensures reply.Replied? && Braced(Trim(reply.content)) && parse(Trim(reply.content)).Some? ==>
      q == parse(Trim(reply.content)).value
  {
    ParseOr(reply, parse, NoEventQuery)
  }

  /** A row of the `events` table, as selected. */
  datatype EventRow = EventRow(ticketsLink: Value, date: Value)

  /** One entry of the result: `{ club, tickets_link, date }`. */
  datatype EventEntry = EventEntry(club: string, ticketsLink: Value, date: Value)

  /** The entry for one club from the answer to its query: the first row's link
      and date, or nulls when the query failed or found nothing. */
  function EntryFor(club: string, answer: Query<EventRow>): (e: EventEntry)
    ensures e.club == club
    ensures answer.Rows? && answer.rows != [] ==>
      e.ticketsLink == answer.rows[0].ticketsLink && e.date == answer.rows[0].date
    ensures answer.QueryError? || answer.rows == [] ==> e.ticketsLink == Null && e.date == Null
  {
    match answer
    case Rows(rows) =>
      if |rows| > 0 then EventEntry(club, rows[0].ticketsLink, rows[0].date)
      else EventEntry(club, Null, Null)
    case QueryError => EventEntry(club, Null, Null)
  }

  /** The entries for `clubs` on `date`: one per club, in club order. */
  function EventsOn(clubs: seq<string>, date: string, table: (string, string) -> Query<EventRow>): (es: seq<EventEntry>)
    ensures |es| == |clubs|
    ensures forall i :: 0 <= i < |clubs| ==> es[i] == EntryFor(clubs[i], table(clubs[i], date))
  {
    seq(|clubs|, i requires 0 <= i < |clubs| => EntryFor(clubs[i], table(clubs[i], date)))
  }

  /** `getEventsForClubs(clubs, date)`: queries each club in turn and pushes one
      entry per club; a failed query pushes the null entry and the loop goes on. */
  method GetEventsForClubs(clubs: seq<string>, date: string, table: (string, string) -> Query<EventRow>)
    returns (events: seq<EventEntry>)
    ensures events == EventsOn(clubs, date, table)
  {
    events := [];
    for k := 0 to |clubs|
      invariant events == EventsOn(clubs[..k], date, table)
    {
      var club := clubs[k];
      var answer := table(club, date);
      if answer.QueryError? {
        events := events + [EventEntry(club, Null, Null)];
        continue;
      }
      if |answer.rows| > 0 {
        events := events + [EventEntry(club, answer.rows[0].ticketsLink, answer.rows[0].date)];
      } else {
        events := events + [EventEntry(club, Null, Null)];
      }
      assert clubs[..k + 1] == clubs[..k] + [club];
    }
    assert clubs[..|clubs|] == clubs;
  }
}
