// The featured-video carousel of the discovery screen (FeaturedCarousel):
// which events are featured, and the active slide as the timer, the end
// of a video and the user's scrolling move it.
//
// The timers are modelled by the methods they call; the video player and
// the list's scrolling are left to the platform.

module FeaturedCarousel {
  import opened Basics
  import opened Text

  datatype EventItem = EventItem(id: string, name: string, date: string, promoVideos: seq<string>)

  predicate HasVideo(e: EventItem) { |e.promoVideos| > 0 }

  /** Placing one event into a list sorted newest first, after the events of the same date. */
  function Insert(x: EventItem, t: seq<EventItem>): (r: seq<EventItem>)
    ensures multiset(r) == multiset(t) + multiset{x}
  {
    if t == [] then [x]
    else if StringLess(t[0].date, x.date) then [x] + t
    else
      assert t == [t[0]] + t[1..];
      [t[0]] + Insert(x, t[1..])
  }

  /** Newest first, by the date string as the comparator compares it. */
  predicate SortedNewestFirst(s: seq<EventItem>) {
    forall i, j :: 0 <= i < j < |s| ==> !StringLess(s[i].date, s[j].date)
  }

  lemma {:induction false} InsertSorted(x: EventItem, t: seq<EventItem>)
    requires SortedNewestFirst(t)
    ensures SortedNewestFirst(Insert(x, t))
  {
    if t != [] {
      if StringLess(t[0].date, x.date) {
        forall j | 0 <= j < |t| ensures !StringLess(x.date, t[j].date) {
          if StringLess(x.date, t[j].date) {
            StringLessTransitive(t[0].date, x.date, t[j].date);
            if j == 0 {
              StringLessIrreflexive(t[0].date);
            }
            assert false;
          }
        }
        ConsSorted(x, t);
      } else {
        InsertSorted(x, t[1..]);
        HeadStaysFirst(x, t);
        ConsSorted(t[0], Insert(x, t[1..]));
      }
    }
  }

  /** An event no older than every event of a sorted list can go in front of it. */
  lemma ConsSorted(h: EventItem, r: seq<EventItem>)
    requires SortedNewestFirst(r)
    requires forall k :: 0 <= k < |r| ==> !StringLess(h.date, r[k].date)
    ensures SortedNewestFirst([h] + r)
  {
    var s := [h] + r;
    forall i, j | 0 <= i < j < |s| ensures !StringLess(s[i].date, s[j].date) {
      assert s[j] == r[j - 1];
      if i > 0 {
        assert s[i] == r[i - 1];
      }
    }
  }

  /** The head of a sorted list that the new event does not overtake is no older than the rest after insertion. */
  lemma HeadStaysFirst(x: EventItem, t: seq<EventItem>)
    requires SortedNewestFirst(t) && t != [] && !StringLess(t[0].date, x.date)
    ensures forall k :: 0 <= k < |Insert(x, t[1..])| ==> !StringLess(t[0].date, Insert(x, t[1..])[k].date)
  {
    var r := Insert(x, t[1..]);
    forall k | 0 <= k < |r| ensures !StringLess(t[0].date, r[k].date) {
      assert r[k] in multiset(r);
      if r[k] != x {
        assert r[k] in multiset(t[1..]);
        var j :| 0 <= j < |t[1..]| && t[1..][j] == r[k];
        assert t[j + 1] == r[k];
      }
    }
  }

  /** A stable sort, newest first. */
  function SortNewestFirst(s: seq<EventItem>): (r: seq<EventItem>)
    ensures multiset(r) == multiset(s)
  {
    if s == [] then []
    else
      assert s == s[..|s| - 1] + [s[|s| - 1]];
      Insert(s[|s| - 1], SortNewestFirst(s[..|s| - 1]))
  }

  lemma {:induction false} SortNewestFirstSorted(s: seq<EventItem>)
    ensures SortedNewestFirst(SortNewestFirst(s))
  {
    if s != [] {
      SortNewestFirstSorted(s[..|s| - 1]);
      InsertSorted(s[|s| - 1], SortNewestFirst(s[..|s| - 1]));
    }
  }

  /** `featured`: the newest three events with a promo video. */
  function Featured(events: seq<EventItem>): (r: seq<EventItem>)
    ensures |r| <= 3
    ensures |r| == if |Filter(events, HasVideo)| < 3 then |Filter(events, HasVideo)| else 3
  {
    var sorted := SortNewestFirst(Filter(events, HasVideo));
    assert |sorted| == |multiset(sorted)| == |Filter(events, HasVideo)|;
    Take(sorted, 3)
  }

  /** At most three events, each with a video and taken from the list, newest first. */
  lemma FeaturedShape(events: seq<EventItem>)
    ensures var r := Featured(events);
      |r| <= 3 && SortedNewestFirst(r)
      && forall i :: 0 <= i < |r| ==> HasVideo(r[i]) && r[i] in events
  {
    var sorted := SortNewestFirst(Filter(events, HasVideo));
    SortNewestFirstSorted(Filter(events, HasVideo));
    var r := Featured(events);
    forall i | 0 <= i < |r| ensures HasVideo(r[i]) && r[i] in events {
      assert r[i] == sorted[i];
      assert sorted[i] in multiset(Filter(events, HasVideo));
    }
  }

  /**
   * The featured events are the newest: a video event left out (an
   * occurrence of it not featured) is no newer than any featured event.
   */
  lemma FeaturedAreNewest(events: seq<EventItem>, e: EventItem)
    requires multiset(Featured(events))[e] < multiset(Filter(events, HasVideo))[e]
    ensures HasVideo(e) && e in events
    ensures |Featured(events)| == 3
    ensures forall i :: 0 <= i < |Featured(events)| ==> !StringLess(Featured(events)[i].date, e.date)
  {
    var videos := Filter(events, HasVideo);
    var sorted := SortNewestFirst(videos);
    SortNewestFirstSorted(videos);
    var r := Featured(events);
    assert r == sorted[..|r|];
    LeftOutOfPrefix(sorted, |r|, e);
    assert e in multiset(videos);
    var k :| 0 <= k < |videos| && videos[k] == e;
  }

  /** An element left out of a prefix of a newest-first list is no newer than the prefix. */
  lemma LeftOutOfPrefix(sorted: seq<EventItem>, n: nat, e: EventItem)
    requires SortedNewestFirst(sorted) && n <= |sorted|
    requires multiset(sorted[..n])[e] < multiset(sorted)[e]
    ensures n < |sorted|
    ensures forall i :: 0 <= i < n ==> !StringLess(sorted[..n][i].date, e.date)
  {
    assert sorted == sorted[..n] + sorted[n..];
    assert multiset(sorted) == multiset(sorted[..n]) + multiset(sorted[n..]);
    assert e in multiset(sorted[n..]);
    var j :| 0 <= j < |sorted[n..]| && sorted[n..][j] == e;
    assert sorted[n + j] == e;
  }

  /** Three events are featured as soon as three have a video; otherwise every one of them is. */
  lemma FeaturedCount(events: seq<EventItem>)
    ensures |Featured(events)| == if |Filter(events, HasVideo)| < 3 then |Filter(events, HasVideo)| else 3
  {
    var sorted := SortNewestFirst(Filter(events, HasVideo));
    assert |sorted| == |multiset(sorted)| == |multiset(Filter(events, HasVideo))|;
  }

  /** The slide after the end of a video or the fallback timer: the next one, wrapping to the first. */
  function NextIndex(activeIndex: int, count: nat): (r: int)
    requires count > 0
    ensures 0 <= r < count
    ensures 0 <= activeIndex < count - 1 ==> r == activeIndex + 1
    ensures activeIndex == count - 1 ==> r == 0
  {
    (activeIndex + 1) % count
  }

  /** `onMomentumScrollEnd`: the slide under the offset, clamped to the slides there are. */
  function MomentumIndex(x: real, width: real, count: nat): (r: int)
    requires width - 32.0 + 12.0 > 0.0
    ensures count > 0 ==> 0 <= r < count
    ensures count == 0 ==> r == 0
    ensures count > 0 && 0 <= Round(x / (width - 20.0)) < count ==> r == Round(x / (width - 20.0))
    ensures Round(x / (width - 20.0)) < 0 ==> r == 0
    ensures count > 0 && Round(x / (width - 20.0)) >= count ==> r == count - 1
  {
    var itemWidthWithGap := width - 32.0 + 12.0;
    var idx := Round(x / itemWidthWithGap);
    var upper := if idx <= count - 1 then idx else count - 1;
    if 0 >= upper then 0 else upper
  }

  /** Advancing through every slide comes back to the first. */
  lemma {:induction false} AdvanceCycles(count: nat, steps: nat)
    requires count > 0
    ensures Cycle(0, count, steps) == steps % count
  {
    if steps > 0 {
      AdvanceCycles(count, steps - 1);
      NextIndexOfRemainder(steps - 1, count);
    }
  }

  /** The slide after the remainder of n is the remainder of n + 1. */
  lemma NextIndexOfRemainder(n: nat, count: nat)
    requires count > 0
    ensures NextIndex(n % count, count) == (n + 1) % count
  {
    ModSuccessor(n, count);
  }

  lemma ModSuccessor(n: nat, count: nat)
    requires count > 0
    ensures (n + 1) % count == (n % count + 1) % count
  {
    var q, m := n / count, n % count;
    assert n == q * count + m;
    if m + 1 < count {
      ModUnique(n + 1, count, q, m + 1);
      ModUnique(m + 1, count, 0, m + 1);
    } else {
      assert (q + 1) * count == q * count + count;
      ModUnique(n + 1, count, q + 1, 0);
      ModUnique(m + 1, count, 1, 0);
    }
  }

  /** Euclidean division has one quotient and one remainder. */
  lemma ModUnique(n: int, count: int, q: int, m: int)
    requires count > 0 && 0 <= m < count && n == q * count + m
    ensures n % count == m
  {
    var d := q - n / count;
    assert d * count == n % count - m;
    assert d >= 1 ==> d * count >= count;
    assert d <= -1 ==> d * count <= -count;
  }

  function Cycle(start: int, count: nat, steps: nat): int
    requires count > 0
  {
    if steps == 0 then start else NextIndex(Cycle(start, count, steps - 1), count)
  }

  class Carousel {
    const featured: seq<EventItem>
    var activeIndex: int
    /** The index kept in the ref beside the state. */
    var indexRef: int
    /** A scheduled advance after the end of a video. */
    var pendingAdvance: bool

    constructor (events: seq<EventItem>)
      ensures featured == Featured(events) && activeIndex == 0 && indexRef == 0 && !pendingAdvance
    {
      featured := Featured(events);
      activeIndex, indexRef, pendingAdvance := 0, 0, false;
    }

    /** Nothing is drawn, and the fallback timer is not started, without featured events. */
    function Renders(): (r: bool)
      ensures r <==> featured != []
    {
      |featured| > 0
    }

    /**
     * `advanceToNextVideo`, called by the fallback timer or the scheduled
     * advance. A change of the active slide re-runs the timer effect, whose
     * cleanup cancels a scheduled advance; an unchanged slide (a single
     * featured event) does not re-render, and a scheduled advance stays.
     */
    method Advance()
      requires featured != []
      modifies this`activeIndex, this`indexRef, this`pendingAdvance
      ensures activeIndex == indexRef == NextIndex(old(activeIndex), |featured|)
      ensures 0 <= activeIndex < |featured|
      ensures activeIndex != old(activeIndex) ==> !pendingAdvance
      ensures activeIndex == old(activeIndex) ==> pendingAdvance == old(pendingAdvance)
    {
      var nextIndex := (activeIndex + 1) % |featured|;
      indexRef := nextIndex;
      if nextIndex != activeIndex {
        pendingAdvance := false;
      }
      activeIndex := nextIndex;
    }

    /** `handleVideoComplete`: an advance is scheduled, replacing one already pending. */
    method VideoComplete()
      modifies this`pendingAdvance
      ensures pendingAdvance
    {
      pendingAdvance := true;
    }

    /** The scheduled advance fires. */
    method PendingFires()
      requires featured != [] && pendingAdvance
      modifies this`activeIndex, this`indexRef, this`pendingAdvance
      ensures activeIndex == indexRef == NextIndex(old(activeIndex), |featured|)
      ensures !pendingAdvance
    {
      pendingAdvance := false;
      Advance();
    }

    /**
     * `onViewableItemsChanged`, given the indices of the visible slides: the
     * first one (0 where it has none) becomes active, cancelling a scheduled
     * advance; with no visible slide nothing changes.
     */
    method ViewableChanged(viewable: seq<Option<int>>)
      modifies this`activeIndex, this`indexRef, this`pendingAdvance
      ensures viewable != [] ==> activeIndex == indexRef == viewable[0].GetOr(0) && !pendingAdvance
      ensures viewable == [] ==> unchanged(this)
    {
      if |viewable| > 0 {
        var nextIndex := viewable[0].GetOr(0);
        activeIndex := nextIndex;
        indexRef := nextIndex;
        pendingAdvance := false;
      }
    }

    /** `onMomentumScrollEnd` */
    method MomentumEnd(x: real, width: real)
      requires width - 32.0 + 12.0 > 0.0
      modifies this`activeIndex, this`indexRef, this`pendingAdvance
      ensures activeIndex == indexRef == MomentumIndex(x, width, |featured|) && !pendingAdvance
      ensures featured != [] ==> 0 <= activeIndex < |featured|
    {
      var bounded := MomentumIndex(x, width, |featured|);
      activeIndex := bounded;
      indexRef := bounded;
      pendingAdvance := false;
    }
  }
}
