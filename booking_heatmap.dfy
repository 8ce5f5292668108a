// The booking heat map (hooks/useBookingHeatmap): one weighted point per
// club with coordinates and sold tickets, the points inside the visible
// region, and their grouping into grid cells placed at the members' mean.
//
// The club request is a parameter of the method that receives its reply;
// coordinates are exact reals.

module BookingHeatmap {
  import opened Basics
  import MapUtils

  datatype Ticket = Ticket(quantitySold: Option<int>)
  datatype Event = Event(tickets: seq<Ticket>)
  /** A club of the reply; an absent map link is "" and absent events are []. */
  datatype Club = Club(id: string, mapLink: string, events: seq<Event>)

  datatype Point = Point(latitude: real, longitude: real, weight: int, clubId: Option<string>)

  /** `withinRegion`: true without a region, else the bounds are inclusive. */
  predicate WithinRegion(p: Point, region: Option<MapUtils.Region>) {
    match region
    case None => true
    case Some(r) =>
      r.latitude - r.latitudeDelta / 2.0 <= p.latitude <= r.latitude + r.latitudeDelta / 2.0
      && r.longitude - r.longitudeDelta / 2.0 <= p.longitude <= r.longitude + r.longitudeDelta / 2.0
  }

  /** The region built for a set of points contains all of them. */
  lemma RegionOfPointsContainsThem(points: seq<Point>)
    ensures var cs := seq(|points|, i requires 0 <= i < |points| => MapUtils.Coordinates(points[i].latitude, points[i].longitude));
      forall i :: 0 <= i < |points| ==> WithinRegion(points[i], Some(MapUtils.MapRegion(cs)))
  {
    var cs := seq(|points|, i requires 0 <= i < |points| => MapUtils.Coordinates(points[i].latitude, points[i].longitude));
    MapUtils.MarkersInsideRegion(cs);
    forall i | 0 <= i < |points| ensures WithinRegion(points[i], Some(MapUtils.MapRegion(cs))) {
      assert cs[i].latitude == points[i].latitude && cs[i].longitude == points[i].longitude;
    }
  }

  /** The tickets sold for one event, a missing count being 0. */
  function EventSold(tickets: seq<Ticket>): int {
    if tickets == [] then 0
    else EventSold(tickets[..|tickets| - 1]) + tickets[|tickets| - 1].quantitySold.GetOr(0)
  }

  /** The tickets sold across a club's events. */
  function ClubSold(events: seq<Event>): int {
    if events == [] then 0
    else ClubSold(events[..|events| - 1]) + EventSold(events[|events| - 1].tickets)
  }

  /** The inner loop: the booking count of one club. */
  method BookingCount(events: seq<Event>) returns (bookingCount: int)
    ensures bookingCount == ClubSold(events)
  {
    bookingCount := 0;
    var k := 0;
    while k < |events|
      invariant 0 <= k <= |events|
      invariant bookingCount == ClubSold(events[..k])
    {
      assert events[..k + 1][..k] == events[..k];
      bookingCount := bookingCount + EventSold(events[k].tickets);
      k := k + 1;
    }
    assert events[..k] == events;
  }

  /** The point of a club, if it has coordinates and a positive booking count. */
  function ClubPoint(c: Club): Option<Point> {
    match MapUtils.LinkCoordinates(c.mapLink)
    case None => None
    case Some(coords) =>
      if ClubSold(c.events) > 0 then Some(Point(coords.latitude, coords.longitude, ClubSold(c.events), Some(c.id)))
      else None
  }

  /** The raw points: one per club with coordinates and sold tickets, in club order. */
  function PointsOf(clubs: seq<Club>): (r: seq<Point>)
    ensures |r| <= |clubs|
    ensures forall k :: 0 <= k < |r| ==>
      r[k].weight > 0 && r[k].clubId.Some? && (exists c :: c in clubs && ClubPoint(c) == Some(r[k]))
  {
    if clubs == [] then []
    else
      var init := clubs[..|clubs| - 1];
      var last := clubs[|clubs| - 1];
      var r := PointsOf(init) + (if ClubPoint(last).Some? then [ClubPoint(last).value] else []);
      assert forall c :: c in init ==> c in clubs;
      r
  }

  /** Every club with coordinates in a link and a positive booking count gives a point. */
  lemma {:induction false} ClubsWithBookingsArePoints(clubs: seq<Club>, c: Club)
    requires c in clubs
    requires MapUtils.LinkCoordinates(c.mapLink).Some? && ClubSold(c.events) > 0
    ensures ClubPoint(c).Some? && ClubPoint(c).value in PointsOf(clubs)
  {
    var last := clubs[|clubs| - 1];
    if c != last {
      assert clubs == clubs[..|clubs| - 1] + [last];
      ClubsWithBookingsArePoints(clubs[..|clubs| - 1], c);
    }
  }

  /** The outer loop over the clubs of the reply. */
  method BuildPoints(clubs: seq<Club>) returns (rawPoints: seq<Point>)
    ensures rawPoints == PointsOf(clubs)
  {
    rawPoints := [];
    var k := 0;
    while k < |clubs|
      invariant 0 <= k <= |clubs|
      invariant rawPoints == PointsOf(clubs[..k])
    {
      var club := clubs[k];
      assert clubs[..k + 1][..k] == clubs[..k];
      var coords := MapUtils.ExtractCoordinates(club.mapLink);
      if coords.Some? {
        var bookingCount := BookingCount(club.events);
        if bookingCount > 0 {
          rawPoints := rawPoints + [Point(coords.value.latitude, coords.value.longitude, bookingCount, Some(club.id))];
        }
      }
      k := k + 1;
    }
    assert clubs[..k] == clubs;
  }

  // ------------------------------------------------------------ clustering

  /** The grid cell of a point; the source's "lat_lng" string key is the pair. */
  type Key = (int, int)

  datatype Bucket = Bucket(sumLat: real, sumLng: real, totalWeight: int, count: nat)

  const BucketSize: real := 0.01

  function KeyOf(p: Point): Key {
    (Round(p.latitude / BucketSize), Round(p.longitude / BucketSize))
  }

  const EmptyBucket := Bucket(0.0, 0.0, 0, 0)

  function Added(b: Bucket, p: Point): Bucket {
    Bucket(b.sumLat + p.latitude, b.sumLng + p.longitude, b.totalWeight + p.weight, b.count + 1)
  }

  /** What the cell `key` accumulates over the points: the reference for the buckets. */
  function BucketOf(ps: seq<Point>, key: Key): (r: Bucket)
    ensures r.count == 0 ==> r == EmptyBucket
  {
    if ps == [] then EmptyBucket
    else
      var b := BucketOf(ps[..|ps| - 1], key);
      if KeyOf(ps[|ps| - 1]) == key then Added(b, ps[|ps| - 1]) else b
  }

  /** `buckets.get(key)`: the position of the cell in insertion order. */
  function IndexOfKey(bs: seq<(Key, Bucket)>, key: Key): (r: Option<nat>)
    ensures r.Some? ==> r.value < |bs| && bs[r.value].0 == key
    ensures r.None? ==> forall i :: 0 <= i < |bs| ==> bs[i].0 != key
  {
    if bs == [] then None
    else if bs[0].0 == key then Some(0)
    else match IndexOfKey(bs[1..], key)
      case None => None
      case Some(i) => Some(i + 1)
  }

  /** One step of the clustering loop: add to the point's cell, or open it with this point. */
  function AddPoint(bs: seq<(Key, Bucket)>, p: Point): (r: seq<(Key, Bucket)>)
    ensures |bs| <= |r| <= |bs| + 1
  {
    var key := KeyOf(p);
    match IndexOfKey(bs, key)
    case Some(i) => bs[i := (key, Added(bs[i].1, p))]
    case None => bs + [(key, Added(EmptyBucket, p))]
  }

  /** The cells after the points, in the order they were opened. */
  function Buckets(ps: seq<Point>): (r: seq<(Key, Bucket)>)
    ensures |r| <= |ps|
  {
    if ps == [] then [] else AddPoint(Buckets(ps[..|ps| - 1]), ps[|ps| - 1])
  }

  /** The cells hold, each once, exactly the keys of the points, and each accumulates exactly its points. */
  ghost predicate Accumulates(ps: seq<Point>, bs: seq<(Key, Bucket)>) {
    |bs| <= |ps|
    && (forall i :: 0 <= i < |bs| ==> bs[i].1 == BucketOf(ps, bs[i].0) && bs[i].1.count >= 1)
    && (forall i, j :: 0 <= i < j < |bs| ==> bs[i].0 != bs[j].0)
    && (forall key :: IndexOfKey(bs, key).Some? <==> BucketOf(ps, key).count >= 1)
  }

  lemma BucketOfSnoc(ps: seq<Point>, p: Point, key: Key)
    ensures BucketOf(ps + [p], key) == if KeyOf(p) == key then Added(BucketOf(ps, key), p) else BucketOf(ps, key)
  {
    assert (ps + [p])[..|ps|] == ps;
  }

  /** A point of an existing cell is added to that cell. */
  lemma AddToCell(ps: seq<Point>, p: Point, bs: seq<(Key, Bucket)>, i: nat)
    requires Accumulates(ps, bs)
    requires IndexOfKey(bs, KeyOf(p)) == Some(i)
    ensures Accumulates(ps + [p], bs[i := (KeyOf(p), Added(bs[i].1, p))])
  {
    var key := KeyOf(p);
    var qs := ps + [p];
    var r := bs[i := (key, Added(bs[i].1, p))];
    forall k ensures BucketOf(qs, k) == if k == key then Added(BucketOf(ps, k), p) else BucketOf(ps, k) {
      BucketOfSnoc(ps, p, k);
    }
    forall j | 0 <= j < |r| ensures r[j].1 == BucketOf(qs, r[j].0) && r[j].1.count >= 1 {
      if j != i {
        assert r[j] == bs[j] && bs[j].0 != key;
      }
    }
    forall k ensures IndexOfKey(r, k).Some? <==> BucketOf(qs, k).count >= 1 {
      if IndexOfKey(r, k).Some? && k != key {
        var j := IndexOfKey(r, k).value;
        assert j != i && r[j] == bs[j];
        assert IndexOfKey(bs, k).Some?;
      }
      if BucketOf(qs, k).count >= 1 && k != key {
        var j := IndexOfKey(bs, k).value;
        assert r[j] == bs[j];
      }
      if k == key {
        assert r[i].0 == key;
      }
    }
  }

  /** A point of a new key opens a cell at the end. */
  lemma OpenCell(ps: seq<Point>, p: Point, bs: seq<(Key, Bucket)>)
    requires Accumulates(ps, bs)
    requires IndexOfKey(bs, KeyOf(p)).None?
    ensures Accumulates(ps + [p], bs + [(KeyOf(p), Added(EmptyBucket, p))])
  {
    var key := KeyOf(p);
    var qs := ps + [p];
    var r := bs + [(key, Added(EmptyBucket, p))];
    forall k ensures BucketOf(qs, k) == if k == key then Added(BucketOf(ps, k), p) else BucketOf(ps, k) {
      BucketOfSnoc(ps, p, k);
    }
    assert BucketOf(ps, key) == EmptyBucket;
    forall j | 0 <= j < |r| ensures r[j].1 == BucketOf(qs, r[j].0) && r[j].1.count >= 1 {
      if j < |bs| {
        assert r[j] == bs[j] && bs[j].0 != key;
      }
    }
    forall k ensures IndexOfKey(r, k).Some? <==> BucketOf(qs, k).count >= 1 {
      if IndexOfKey(r, k).Some? && k != key {
        var j := IndexOfKey(r, k).value;
        assert j < |bs| && r[j] == bs[j];
        assert IndexOfKey(bs, k).Some?;
      }
      if BucketOf(qs, k).count >= 1 && k != key {
        var j := IndexOfKey(bs, k).value;
        assert r[j] == bs[j];
      }
      if k == key {
        assert r[|bs|].0 == key;
      }
    }
  }

  lemma {:induction false} BucketsAccumulate(ps: seq<Point>)
    ensures Accumulates(ps, Buckets(ps))
  {
    if ps != [] {
      var init, p := ps[..|ps| - 1], ps[|ps| - 1];
      assert ps == init + [p];
      BucketsAccumulate(init);
      var bs := Buckets(init);
      match IndexOfKey(bs, KeyOf(p))
      case Some(i) => AddToCell(init, p, bs, i);
      case None => OpenCell(init, p, bs);
    }
  }

  /** The cluster drawn for a cell: at the mean of its members, with their total weight. */
  function Centre(b: Bucket): Point
    requires b.count >= 1
  {
    Point(b.sumLat / b.count as real, b.sumLng / b.count as real, b.totalWeight, None)
  }

  function Clustered(bs: seq<(Key, Bucket)>): (r: seq<Point>)
    requires forall i :: 0 <= i < |bs| ==> bs[i].1.count >= 1
    ensures |r| == |bs| && forall i :: 0 <= i < |bs| ==> r[i] == Centre(bs[i].1)
  {
    seq(|bs|, i requires 0 <= i < |bs| => Centre(bs[i].1))
  }

  function SumWeights(ps: seq<Point>): int {
    if ps == [] then 0 else SumWeights(ps[..|ps| - 1]) + ps[|ps| - 1].weight
  }

  function BucketWeights(bs: seq<(Key, Bucket)>): int {
    if bs == [] then 0 else BucketWeights(bs[..|bs| - 1]) + bs[|bs| - 1].1.totalWeight
  }

  lemma {:induction false} BucketWeightsUpdate(bs: seq<(Key, Bucket)>, i: nat, x: (Key, Bucket))
    requires i < |bs|
    ensures BucketWeights(bs[i := x]) == BucketWeights(bs) - bs[i].1.totalWeight + x.1.totalWeight
    decreases |bs|
  {
    var n := |bs| - 1;
    if i < n {
      assert bs[i := x][..n] == bs[..n][i := x];
      BucketWeightsUpdate(bs[..n], i, x);
    } else {
      assert bs[i := x][..n] == bs[..n];
    }
  }

  /** The cells together weigh what the points weigh. */
  lemma {:induction false} BucketsKeepWeight(ps: seq<Point>)
    ensures BucketWeights(Buckets(ps)) == SumWeights(ps)
  {
    if ps != [] {
      var init, p := ps[..|ps| - 1], ps[|ps| - 1];
      BucketsKeepWeight(init);
      var bs := Buckets(init);
      match IndexOfKey(bs, KeyOf(p))
      case Some(i) =>
        BucketWeightsUpdate(bs, i, (KeyOf(p), Added(bs[i].1, p)));
      case None =>
        assert (bs + [(KeyOf(p), Added(EmptyBucket, p))])[..|bs|] == bs;
    }
  }

  lemma {:induction false} ClusteredWeights(bs: seq<(Key, Bucket)>)
    requires forall i :: 0 <= i < |bs| ==> bs[i].1.count >= 1
    ensures SumWeights(Clustered(bs)) == BucketWeights(bs)
  {
    if bs != [] {
      var n := |bs| - 1;
      assert Clustered(bs)[..n] == Clustered(bs[..n]);
      ClusteredWeights(bs[..n]);
    }
  }

  /** The clusters of some points. */
  function Clusters(ps: seq<Point>): (r: seq<Point>)
    ensures |r| <= |ps|
  {
    BucketsAccumulate(ps);
    Clustered(Buckets(ps))
  }

  /**
   * Clustering keeps the total weight, gives at most one cluster per point,
   * and puts each cluster at the mean position of the points of its cell.
   */
  lemma ClustersSummarisePoints(ps: seq<Point>)
    ensures SumWeights(Clusters(ps)) == SumWeights(ps)
    ensures forall i :: 0 <= i < |Clusters(ps)| ==>
      var b := BucketOf(ps, Buckets(ps)[i].0);
      b.count >= 1 && Clusters(ps)[i] == Point(b.sumLat / b.count as real, b.sumLng / b.count as real, b.totalWeight, None)
  {
    BucketsAccumulate(ps);
    BucketsKeepWeight(ps);
    ClusteredWeights(Buckets(ps));
  }

  /** A cell is opened exactly for the keys of some point: points of different cells are never merged. */
  lemma {:induction false} CellCount(ps: seq<Point>, key: Key)
    ensures BucketOf(ps, key).count >= 1 <==> exists k :: 0 <= k < |ps| && KeyOf(ps[k]) == key
  {
    if ps != [] {
      var init := ps[..|ps| - 1];
      CellCount(init, key);
      if exists k :: 0 <= k < |init| && KeyOf(init[k]) == key {
        var k :| 0 <= k < |init| && KeyOf(init[k]) == key;
        assert ps[k] == init[k];
      }
      if exists k :: 0 <= k < |ps| && KeyOf(ps[k]) == key {
        var k :| 0 <= k < |ps| && KeyOf(ps[k]) == key;
        assert k < |init| ==> init[k] == ps[k];
      }
    }
  }

  /** `visiblePoints`: the points in the region, clustered by grid cell. */
  method VisiblePoints(points: seq<Point>, region: Option<MapUtils.Region>) returns (clustered: seq<Point>)
    ensures clustered == Clusters(Filter(points, (p: Point) => WithinRegion(p, region)))
  {
    var filtered := Filter(points, (p: Point) => WithinRegion(p, region));
    var buckets := FillBuckets(filtered);
    BucketsAccumulate(filtered);
    clustered := PlaceClusters(buckets);
  }

  /** The first loop of `visiblePoints`: each point adds to its cell, opening it if new. */
  method FillBuckets(filtered: seq<Point>) returns (buckets: seq<(Key, Bucket)>)
    ensures buckets == Buckets(filtered)
  {
    buckets := [];
    var k := 0;
    while k < |filtered|
      invariant 0 <= k <= |filtered|
      invariant buckets == Buckets(filtered[..k])
    {
      var p := filtered[k];
      assert filtered[..k + 1][..k] == filtered[..k];
      var key := KeyOf(p);
      var found := IndexOfKey(buckets, key);
      if found.Some? {
        var b := buckets[found.value].1;
        buckets := buckets[found.value := (key, Bucket(b.sumLat + p.latitude, b.sumLng + p.longitude, b.totalWeight + p.weight, b.count + 1))];
      } else {
        buckets := buckets + [(key, Bucket(p.latitude, p.longitude, p.weight, 1))];
      }
      k := k + 1;
    }
    assert filtered[..k] == filtered;
  }

  /** The second loop of `visiblePoints`: one cluster per cell, in the order the cells were opened. */
  method PlaceClusters(buckets: seq<(Key, Bucket)>) returns (clustered: seq<Point>)
    requires forall i :: 0 <= i < |buckets| ==> buckets[i].1.count >= 1
    ensures clustered == Clustered(buckets)
  {
    clustered := [];
    var i := 0;
    while i < |buckets|
      invariant 0 <= i <= |buckets|
      invariant clustered == Clustered(buckets[..i])
    {
      var b := buckets[i].1;
      clustered := clustered + [Point(b.sumLat / b.count as real, b.sumLng / b.count as real, b.totalWeight, None)];
      i := i + 1;
    }
    assert buckets[..i] == buckets;
  }

  /** The reply to the club request. */
  datatype Reply = Clubs(clubs: seq<Club>) | Canceled | Failed(message: string)

  class Heatmap {
    const enabled: bool
    var points: seq<Point>
    var loading: bool
    var error: Option<string>

    constructor (enabled: bool)
      ensures this.enabled == enabled && points == [] && !loading && error == None
    {
      this.enabled := enabled;
      points, loading, error := [], false, None;
    }

    /** `fetchData`: a disabled map shows nothing; a reply replaces the points, a failure keeps them. */
    method FetchData(reply: Reply)
      modifies this`points, this`loading, this`error
      ensures !enabled ==> points == [] && loading == old(loading) && error == old(error)
      ensures enabled ==> !loading
      ensures enabled && reply.Clubs? ==> points == PointsOf(reply.clubs) && error == None
      ensures enabled && reply.Canceled? ==> points == old(points) && error == None
      ensures enabled && reply.Failed? ==>
        points == old(points) && error == Some(if reply.message != "" then reply.message else "Failed to load heatmap")
    {
      if !enabled {
        points := [];
        return;
      }
      loading, error := true, None;
      match reply {
        case Clubs(clubs) =>
          points := BuildPoints(clubs);
        case Canceled =>
        case Failed(message) =>
          error := Some(if message != "" then message else "Failed to load heatmap");
      }
      loading := false;
    }
  }
}
