/** The citizens' announcement board (src/pages/Announcements.tsx). */
module Announcements {
  import opened Wrappers
  import opened Rows
  import opened Query
  import opened Store
  import CitizenGrievances

  /**
   * `fetchAnnouncements`: every announcement, newest publication first (an
   * announcement without a publication date sorts first); null data gives none.
   */
  function Listing(data: Option<seq<Announcement>>): (list: seq<Announcement>)
    ensures SortedDesc(list, AnnouncementPublished)
    ensures data.None? ==> list == []
    ensures data.Some? ==> multiset(list) == multiset(data.value)
  {
    if data.Some? then SortDesc(data.value, AnnouncementPublished) else []
  }

  /** `getPriorityColor`, the same mapping the grievances page uses. */
  function PriorityBadge(a: Announcement): (b: Badge)
    ensures b.text == a.priority
    ensures b.variant == Destructive <==> a.priority == "urgent"
    ensures b.variant == Warning <==> a.priority == "high"
    ensures b.variant == Secondary <==> a.priority != "urgent" && a.priority != "high"
  {
    Badge(CitizenGrievances.PriorityColor(a.priority), a.priority)
  }

  /** The "No announcements at the moment" card is shown only when the list is empty. */
  predicate EmptyStateShown(list: seq<Announcement>) {
    |list| == 0
  }

  /** The empty state appears after a fetch exactly when there was no announcement to read. */
  lemma EmptyStateIffNoAnnouncements(data: Option<seq<Announcement>>)
    ensures EmptyStateShown(Listing(data)) <==> data.None? || data.value == []
  {
    if data.Some? && data.value != [] {
      assert data.value[0] in multiset(Listing(data));
    }
  }
}
