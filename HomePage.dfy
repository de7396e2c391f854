/** The landing page's event teaser (src/pages/Home.tsx): the first three
    upcoming events of the table. */
module HomePage {
  import opened Types
  import opened Seqs
  import opened EventsPage

  /** How many upcoming events the landing page previews. */
  const TeaserSize := 3

  function Min(a: int, b: int): int {
    if a < b then a else b
  }

  /** upcomingEvents: `events.filter(isUpcoming).slice(0, 3)`. A slice past
      the end of the list stops at the end. */
  function UpcomingEvents(events: seq<Event>): (r: seq<Event>)
    ensures |r| <= TeaserSize
    ensures forall e :: e in r ==> e in events && e.isUpcoming
    ensures |r| == Min(TeaserSize, |FilteredEvents(events, Upcoming)|)
    ensures r == FilteredEvents(events, Upcoming)[..|r|]
    ensures |FilteredEvents(events, Upcoming)| < TeaserSize ==> r == FilteredEvents(events, Upcoming)
    ensures IsSubsequence(r, events)
  {
    var upcoming := FilteredEvents(events, Upcoming);
    var r := upcoming[..Min(TeaserSize, |upcoming|)];
    PrefixIsSubsequence(upcoming, |r|);
    SubsequenceTransitive(r, upcoming, events);
    assert forall e :: e in r ==> e in upcoming;
    r
  }

  /** A table that lists at least three upcoming events before its past
      ones previews exactly its first three rows. */
  lemma TeaserOfOrderedTable(events: seq<Event>, k: nat)
    requires TeaserSize <= k <= |events|
    requires forall i :: 0 <= i < k ==> events[i].isUpcoming
    requires forall i :: k <= i < |events| ==> !events[i].isUpcoming
    ensures UpcomingEvents(events) == events[..TeaserSize]
  {
    UpcomingFirst(events, k);
    assert events[..k][..TeaserSize] == events[..TeaserSize];
  }
}
