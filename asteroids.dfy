/**
 * The near-earth asteroid summary: the feed groups asteroids by date; the page
 * flattens the groups, counts all of them and the potentially hazardous ones, and
 * shows the first few.
 */
module Asteroids {
  import opened Wrappers
  import opened Text

  /** How many asteroids the summary shows at most. */
  const MaxShown := 6

  /**
   * One asteroid. `approachKm` holds, per close approach, the miss distance in
   * kilometres when the feed carries one.
   */
  datatype Asteroid = Asteroid(name: string, hazardous: bool, approachKm: seq<Option<string>>)

  /** The `data` member of the feed: the per-date lists, in `Object.values` order. */
  datatype Feed = Feed(nearEarthObjects: seq<seq<Asteroid>>)

  /** A shown asteroid: its name, its first approach's distance if any, and its hazard badge. */
  datatype AsteroidTile = AsteroidTile(name: string, distanceKm: Option<string>, hazardous: bool)

  datatype AsteroidsView = AsteroidsView(total: nat, hazardous: nat, tiles: seq<AsteroidTile>)

  /** The number of entries the groups list, group by group. */
  function TotalListed<T>(groups: seq<seq<T>>): nat {
    if groups == [] then 0 else |groups[0]| + TotalListed(groups[1..])
  }

  /**
   * `groups.flat()`: as many entries as the groups hold together, each entry of each
   * group present, and nothing that is in no group.
   */
  function Flatten<T>(groups: seq<seq<T>>): (r: seq<T>)
    ensures |r| == TotalListed(groups)
    ensures forall i, j :: 0 <= i < |groups| && 0 <= j < |groups[i]| ==> groups[i][j] in r
    ensures forall x :: x in r ==> exists i :: 0 <= i < |groups| && x in groups[i]
  {
    if groups == [] then []
    else
      var rest := Flatten(groups[1..]);
      assert forall x :: x in rest ==> exists i :: 1 <= i < |groups| && x in groups[i];
      groups[0] + rest
  }

  /** `asteroids.filter(a => a.is_potentially_hazardous_asteroid).length`. */
  function CountHazardous(s: seq<Asteroid>): (n: nat)
    ensures n <= |s|
    ensures n == 0 <==> forall i :: 0 <= i < |s| ==> !s[i].hazardous
    ensures n == |s| <==> forall i :: 0 <= i < |s| ==> s[i].hazardous
  {
    if s == [] then 0 else (if s[0].hazardous then 1 else 0) + CountHazardous(s[1..])
  }

  lemma {:induction false} CountHazardousAppend(a: seq<Asteroid>, b: seq<Asteroid>)
    ensures CountHazardous(a + b) == CountHazardous(a) + CountHazardous(b)
  {
    if a == [] {
      assert a + b == b;
    } else {
      CountHazardousAppend(a[1..], b);
      assert (a + b)[1..] == a[1..] + b;
    }
  }

  /** One asteroid counts exactly when it is potentially hazardous. */
  lemma CountHazardousSingle(a: Asteroid)
    ensures CountHazardous([a]) == if a.hazardous then 1 else 0
  {
  }

  /** Flattening a concatenation of groups concatenates the flattened parts, in order. */
  lemma {:induction false} FlattenAppend<T>(a: seq<seq<T>>, b: seq<seq<T>>)
    ensures Flatten(a + b) == Flatten(a) + Flatten(b)
  {
    if a == [] {
      assert a + b == b;
    } else {
      assert (a + b)[0] == a[0] && (a + b)[1..] == a[1..] + b;
      FlattenAppend(a[1..], b);
    }
  }

  /** A single group flattens to itself. */
  lemma FlattenSingle<T>(g: seq<T>)
    ensures Flatten([g]) == g
  {
    assert [g][1..] == [];
  }

  /** The hazardous count is the sum of the per-date hazardous counts. */
  function HazardousByDate(groups: seq<seq<Asteroid>>): nat {
    if groups == [] then 0 else CountHazardous(groups[0]) + HazardousByDate(groups[1..])
  }

  lemma {:induction false} HazardousFlatten(groups: seq<seq<Asteroid>>)
    ensures CountHazardous(Flatten(groups)) == HazardousByDate(groups)
  {
    if groups != [] {
      HazardousFlatten(groups[1..]);
      CountHazardousAppend(groups[0], Flatten(groups[1..]));
    }
  }

  /** `asteroid.close_approach_data[0]?.miss_distance?.kilometers`. */
  function FirstDistance(a: Asteroid): Option<string> {
    if a.approachKm == [] then None else a.approachKm[0]
  }

  function Tile(a: Asteroid): AsteroidTile {
    AsteroidTile(a.name, FirstDistance(a), a.hazardous)
  }

  /**
   * Renders the summary: the total is the sum of the per-date list lengths, the
   * hazardous count never exceeds it, and the first six asteroids of the flattened
   * list are shown in order.
   */
  function DisplayAsteroids(feed: Feed): (v: AsteroidsView)
    ensures v.total == TotalListed(feed.nearEarthObjects) == |Flatten(feed.nearEarthObjects)|
    ensures v.hazardous == HazardousByDate(feed.nearEarthObjects)
    ensures v.hazardous <= v.total
    ensures |v.tiles| == if v.total < MaxShown then v.total else MaxShown
    ensures forall i :: 0 <= i < |v.tiles| ==> v.tiles[i] == Tile(Flatten(feed.nearEarthObjects)[i])
  {
    var all := Flatten(feed.nearEarthObjects);
    HazardousFlatten(feed.nearEarthObjects);
    AsteroidsView(|all|, CountHazardous(all), TakeMap(all, MaxShown, Tile))
  }
}
