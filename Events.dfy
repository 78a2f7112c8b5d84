/** The events page: the fixed events, their split into the upcoming and the past tab,
    and the type and status badge colours. */
module Events {
  import opened Common

  datatype Event = Event(
    id: nat,
    title: string,
    description: string,
    date: string,
    time: string,
    endDate: string,
    location: string,
    kind: string,
    category: string,
    attendees: nat,
    maxAttendees: nat,
    isOnline: bool,
    price: string,
    organizer: string,
    image: string,
    status: string)

  const HeritageConference := Event(
    1, "International Stone Heritage Conference",
    "Join experts from around the world to discuss the latest developments in stone heritage preservation and research.",
    "2024-03-15", "09:00 AM", "2024-03-17", "Florence, Italy", "Conference", "Academic",
    234, 500, false, "Paid", "International Stone Heritage Society", "/placeholder.svg", "upcoming")

  const QuarryVisit := Event(
    2, "Carrara Marble Quarry Site Visit",
    "Exclusive guided tour of the famous Carrara marble quarries with expert geologists and quarry masters.",
    "2024-03-22", "08:00 AM", "2024-03-22", "Carrara, Italy", "Field Trip", "Industrial",
    45, 50, false, "Paid", "Carrara Marble Association", "/placeholder.svg", "upcoming")

  const DocumentationWorkshop := Event(
    3, "Stone Conservation Workshop: Digital Documentation",
    "Learn the latest digital techniques for documenting and preserving stone monuments.",
    "2024-04-05", "02:00 PM", "2024-04-07", "Online", "Workshop", "Technical",
    156, 200, true, "Free", "Digital Heritage Foundation", "/placeholder.svg", "upcoming")

  const GothicSymposium := Event(
    4, "Gothic Architecture Stone Analysis Symposium",
    "Deep dive into the stone materials and construction techniques of Gothic cathedrals.",
    "2024-04-20", "10:00 AM", "2024-04-21", "Paris, France", "Symposium", "Academic",
    89, 150, false, "Paid", "European Gothic Research Center", "/placeholder.svg", "upcoming")

  const RomanQuarryingWebinar := Event(
    5, "Ancient Roman Quarrying Techniques Webinar",
    "Monthly webinar series exploring historical quarrying methods and their modern applications.",
    "2024-02-15", "07:00 PM", "2024-02-15", "Online", "Webinar", "Historical",
    312, 500, true, "Free", "Ancient Quarries Research Group", "/placeholder.svg", "past")

  const MockEvents: seq<Event> :=
    [HeritageConference, QuarryVisit, DocumentationWorkshop, GothicSymposium, RomanQuarryingWebinar]

  // ---------------------------------------------------------------------------
  // Tabs
  // ---------------------------------------------------------------------------

  /** `upcomingEvents`. */
  function UpcomingEvents(events: seq<Event>): seq<Event>
  {
    Filter(events, (e: Event) => e.status == "upcoming")
  }

  /** `pastEvents`. */
  function PastEvents(events: seq<Event>): seq<Event>
  {
    Filter(events, (e: Event) => e.status == "past")
  }

  /** Each tab holds exactly the events of its status, in their original order; no event is
      on both tabs, an event of any other status (such as "ongoing") is on neither, and
      together the tabs hold at most every event. */
  lemma StatusTabs(events: seq<Event>)
    ensures forall e :: e in UpcomingEvents(events) <==> e in events && e.status == "upcoming"
    ensures forall e :: e in PastEvents(events) <==> e in events && e.status == "past"
    ensures IsSubsequence(UpcomingEvents(events), events)
    ensures IsSubsequence(PastEvents(events), events)
    ensures forall e :: !(e in UpcomingEvents(events) && e in PastEvents(events))
    ensures forall e: Event :: e.status != "upcoming" && e.status != "past" ==>
              e !in UpcomingEvents(events) && e !in PastEvents(events)
    ensures |UpcomingEvents(events)| + |PastEvents(events)| <= |events|
  {
    FilterIsSubsequence(events, (e: Event) => e.status == "upcoming");
    FilterIsSubsequence(events, (e: Event) => e.status == "past");
    FilterDisjoint(events, (e: Event) => e.status == "upcoming", (e: Event) => e.status == "past");
  }

  /** The fixed events: the first four are upcoming, the webinar is past. */
  lemma MockEventTabs()
    ensures UpcomingEvents(MockEvents) == MockEvents[..4]
    ensures PastEvents(MockEvents) == [RomanQuarryingWebinar]
  {
    var up := (e: Event) => e.status == "upcoming";
    var past := (e: Event) => e.status == "past";
    assert MockEvents == MockEvents[..4] + [RomanQuarryingWebinar];
    FilterAppend(MockEvents[..4], [RomanQuarryingWebinar], up);
    FilterAll(MockEvents[..4], up);
    FilterAppend(MockEvents[..4], [RomanQuarryingWebinar], past);
    FilterNone(MockEvents[..4], past);
  }

  // ---------------------------------------------------------------------------
  // Badge colours
  // ---------------------------------------------------------------------------

  const Gray := "bg-gray-100 text-gray-800"

  const TypeColors: map<string, string> := map[
    "Conference" := "bg-blue-100 text-blue-800",
    "Field Trip" := "bg-green-100 text-green-800",
    "Workshop" := "bg-purple-100 text-purple-800",
    "Symposium" := "bg-orange-100 text-orange-800",
    "Webinar" := "bg-indigo-100 text-indigo-800"]

  const StatusColors: map<string, string> := map[
    "upcoming" := "bg-green-100 text-green-800",
    "ongoing" := "bg-yellow-100 text-yellow-800",
    "past" := Gray]

  /** `getEventTypeColor`: the five known types are coloured, anything else is gray. */
  function EventTypeColor(kind: string): (color: string)
    ensures kind == "Conference" ==> color == "bg-blue-100 text-blue-800"
    ensures kind == "Field Trip" ==> color == "bg-green-100 text-green-800"
    ensures kind == "Workshop" ==> color == "bg-purple-100 text-purple-800"
    ensures kind == "Symposium" ==> color == "bg-orange-100 text-orange-800"
    ensures kind == "Webinar" ==> color == "bg-indigo-100 text-indigo-800"
    ensures color == Gray <==> kind !in TypeColors
  {
    if kind in TypeColors then TypeColors[kind] else Gray
  }

  /** `getStatusColor`: upcoming green, ongoing yellow, past and anything else gray. */
  function StatusColor(status: string): (color: string)
    ensures status == "upcoming" ==> color == "bg-green-100 text-green-800"
    ensures status == "ongoing" ==> color == "bg-yellow-100 text-yellow-800"
    ensures color == Gray <==> status != "upcoming" && status != "ongoing"
  {
    if status in StatusColors then StatusColors[status] else Gray
  }

  /** Every event of the dataset has a coloured type badge. */
  lemma MockEventTypesAreColoured()
    ensures forall e :: e in MockEvents ==> EventTypeColor(e.kind) != Gray
  {
  }
}
