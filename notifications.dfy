/** Notification records of the notification service. */
module Notifications {
  import opened Common
  import Ordering

  /** A notification as the service returns it. */
  datatype Notification = Notification(title: string, message: string, createdAt: int)

  /** A stored notification document; `createdAt` is null until the store has
      set its server timestamp, or in a document written elsewhere. */
  datatype NotificationRecord = NotificationRecord(title: string, message: string, createdAt: Option<int>)

  const DayMillis: int := 86400000

  const NotificationSentMockMessage := "Notification sent successfully (mock)!"
  const NotificationFailedMessage := "An unexpected error occurred while sending the notification."
  const NotificationSentMessage := "Notification sent successfully!"

  const WelcomeTitle := "Welcome to HireJacks!"
  const WelcomeMessage := "We are excited to have you here. Start exploring jobs now!"
  const CareerFairTitle := "Upcoming Career Fair"
  const CareerFairMessage := "Join us for the virtual career fair next week. Top companies will be attending."

  /** `mockNotifications` as the module creates it at load time `loadTime`. */
  function InitialMockNotifications(loadTime: int): seq<Doc<Notification>> {
    [ Doc("1", Notification(WelcomeTitle, WelcomeMessage, loadTime)),
      Doc("2", Notification(CareerFairTitle, CareerFairMessage, loadTime - DayMillis)) ]
  }

  /** The two initial entries have ids "1" and "2", the first stamped with the
      load time and the second one day earlier, so they are listed latest first. */
  lemma InitialMockOrder(loadTime: int)
    ensures var r := InitialMockNotifications(loadTime);
      && |r| == 2 && r[0].id == "1" && r[1].id == "2"
      && r[0].data.createdAt == loadTime && r[1].data.createdAt == loadTime - DayMillis
      && Ordering.DescendingBy(r, CreatedAt)
  {
  }

  /** The entry a mock `addNotification` puts in front of the in-memory list. */
  function MockNotification(title: string, message: string, now: int): (d: Doc<Notification>)
    ensures d.id == "mock-" + IntToString(now)
    ensures d.data == Notification(title, message, now)
  {
    Doc("mock-" + IntToString(now), Notification(title, message, now))
  }

  function CreatedAt(d: Doc<Notification>): int {
    d.data.createdAt
  }

  /** `{ id: doc.id, ...data, createdAt: data.createdAt.toDate() }` */
  function Stamp(d: Doc<NotificationRecord>): (r: Doc<Notification>)
    requires d.data.createdAt.Some?
    ensures r.id == d.id && r.data.title == d.data.title && r.data.message == d.data.message
    ensures r.data.createdAt == d.data.createdAt.value
  {
    Doc(d.id, Notification(d.data.title, d.data.message, d.data.createdAt.value))
  }

  /** The stored document a listed notification comes from. */
  function Unstamp(d: Doc<Notification>): (r: Doc<NotificationRecord>)
    ensures r.data.createdAt.Some? && Stamp(r) == d
  {
    Doc(d.id, NotificationRecord(d.data.title, d.data.message, Some(d.data.createdAt)))
  }

  /** The `map` then `filter(Boolean)` over the query snapshot: documents
      without a timestamp are dropped, the others converted, in order. */
  function Stamped(stored: seq<Doc<NotificationRecord>>): (r: seq<Doc<Notification>>)
    ensures |r| <= |stored|
    ensures forall i :: 0 <= i < |stored| && stored[i].data.createdAt.Some? ==> Stamp(stored[i]) in r
    ensures forall j :: 0 <= j < |r| ==> Unstamp(r[j]) in stored
    decreases |stored|
  {
    if stored == [] then []
    else
      var rest := Stamped(stored[1..]);
      assert forall i :: 1 <= i < |stored| ==> stored[i] == stored[1..][i - 1];
      assert forall j :: 0 <= j < |rest| ==> Unstamp(rest[j]) in stored[1..];
      if stored[0].data.createdAt.Some? then
        var r := [Stamp(stored[0])] + rest;
        assert forall j :: 1 <= j < |r| ==> r[j] == rest[j - 1];
        r
      else rest
  }

  /** Every stored notification has a timestamp exactly when none is dropped. */
  lemma {:induction false} StampedKeepsAll(stored: seq<Doc<NotificationRecord>>)
    ensures |Stamped(stored)| == |stored| <==> forall i :: 0 <= i < |stored| ==> stored[i].data.createdAt.Some?
    decreases |stored|
  {
    if stored != [] {
      StampedKeepsAll(stored[1..]);
      assert forall i :: 1 <= i < |stored| ==> stored[i] == stored[1..][i - 1];
    }
  }

  /** Storing one more timestamped notification adds exactly its converted
      form at the end of the list, after the earlier ones unchanged. */
  lemma {:induction false} StampedAppend(stored: seq<Doc<NotificationRecord>>, d: Doc<NotificationRecord>)
    requires d.data.createdAt.Some?
    ensures Stamped(stored + [d]) == Stamped(stored) + [Stamp(d)]
    decreases |stored|
  {
    if stored == [] {
      assert [] + [d] == [d];
    } else {
      assert (stored + [d])[1..] == stored[1..] + [d];
      StampedAppend(stored[1..], d);
    }
  }

  /** Storing one more notification without a timestamp leaves the list as it
      was: the filter drops it and nothing else changes. */
  lemma {:induction false} StampedDrop(stored: seq<Doc<NotificationRecord>>, d: Doc<NotificationRecord>)
    requires d.data.createdAt.None?
    ensures Stamped(stored + [d]) == Stamped(stored)
    decreases |stored|
  {
    if stored == [] {
      assert [] + [d] == [d];
    } else {
      assert (stored + [d])[1..] == stored[1..] + [d];
      StampedDrop(stored[1..], d);
    }
  }

  /** What `getNotifications` lists from the stored documents: those with a
      timestamp, converted, latest first. */
  function Listing(stored: seq<Doc<NotificationRecord>>): (r: seq<Doc<Notification>>)
    ensures multiset(r) == multiset(Stamped(stored))
    ensures Ordering.DescendingBy(r, CreatedAt)
  {
    Ordering.SortDesc(Stamped(stored), CreatedAt)
  }

  /** A notification stored with its server timestamp is listed afterwards, and
      nothing listed before goes missing. */
  lemma ListingAfterAdd(stored: seq<Doc<NotificationRecord>>, d: Doc<NotificationRecord>)
    requires d.data.createdAt.Some?
    ensures multiset(Listing(stored + [d])) == multiset(Listing(stored)) + multiset{Stamp(d)}
  {
    StampedAppend(stored, d);
  }
}
