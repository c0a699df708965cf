/** Upcoming-event records of the event service. */
module Events {
  import opened Common
  import Seeding

  datatype EventKind = Fair | Workshop | Session

  datatype UpcomingEvent = UpcomingEvent(title: string, date: string, kind: EventKind)

  const InitialEvents: seq<UpcomingEvent> := [
    UpcomingEvent("Virtual Career Fair", "October 25, 2024", Fair),
    UpcomingEvent("Resume Workshop", "November 2, 2024", Workshop),
    UpcomingEvent("Interview Prep Session", "November 10, 2024", Session)
  ]

  /** `mockEvents`: the canonical events with ids "mock-event-i". */
  function MockEvents(): (r: seq<Doc<UpcomingEvent>>)
    ensures |r| == |InitialEvents| == 3
    ensures forall i :: 0 <= i < 3 ==> r[i].id == Seeding.MockId("mock-event-", i) && r[i].data == InitialEvents[i]
  {
    Seeding.MockDocs("mock-event-", InitialEvents)
  }
}
