/**
  The endless track: a window of track tiles under the tile controller. Creating a
  tile appends a randomly chosen prefab at a link's position and rotation and, once
  more than two tiles exist, removes the oldest. The engine defers destruction to
  the end of the frame; here removal is immediate.
 */
module RoadTiles {
  import opened Common

  /** Where the next tile goes: a link transform's position and rotation (Euler angles). */
  datatype Link = Link(position: Vec3, rotation: Vec3)

  /** A placed tile: the prefab index it was made from and its pose. */
  datatype Tile = Tile(prefab: nat, position: Vec3, rotation: Vec3)

  /** `prefabCount` is the length of the prefab list; `children` are the live tiles, oldest first. */
  datatype Road = Road(prefabCount: nat, children: seq<Tile>, startAreaActive: bool)

  /** A call's outcome: the road afterwards, and whether it aborted with an index error. */
  datatype Outcome = Outcome(road: Road, thrown: bool)

  /** The random prefab index, drawn from [0, prefabCount) by the engine's `Random.Range`. */
  function RandomIndex(prefabCount: nat, roll: nat): (i: int)
    ensures prefabCount > 0 ==> 0 <= i < prefabCount
    ensures prefabCount == 0 ==> i == 0
  {
    RandomRange(0, prefabCount, roll)
  }

  /** The tile a creation at `link` with random draw `roll` instantiates. */
  function NewTile(prefabCount: nat, link: Link, roll: nat): Tile
    requires prefabCount > 0
  {
    Tile(RandomIndex(prefabCount, roll), link.position, link.rotation)
  }

  /** The last two elements of a sequence, or all of it when shorter. */
  function LastTwo<T>(s: seq<T>): (r: seq<T>)
    ensures |r| <= 2
    ensures |s| <= 2 ==> r == s
  {
    if |s| > 2 then s[|s| - 2..] else s
  }

  /**
    Creates the next tile. With an empty prefab list the index is out of range and
    nothing is created.
   */
  function CreateNewTile(road: Road, link: Link, roll: nat): (r: Outcome)
    ensures r.thrown <==> road.prefabCount == 0
    ensures r.thrown ==> r.road == road
    ensures r.road.prefabCount == road.prefabCount && r.road.startAreaActive == road.startAreaActive
    // appended as the last child, at the link's pose
    ensures !r.thrown ==> |r.road.children| > 0 && r.road.children[|r.road.children| - 1] == NewTile(road.prefabCount, link, roll)
    // beyond two children the oldest goes and the others keep their order
    ensures !r.thrown && |road.children| + 1 > 2 ==> r.road.children == road.children[1..] + [NewTile(road.prefabCount, link, roll)]
    ensures !r.thrown && |road.children| + 1 <= 2 ==> r.road.children == road.children + [NewTile(road.prefabCount, link, roll)]
    ensures |road.children| <= 2 ==> |r.road.children| <= 2
  {
    if road.prefabCount == 0 then Outcome(road, true)
    else
      var children := road.children + [NewTile(road.prefabCount, link, roll)];
      var kept := if |children| > 2 then children[1..] else children;
      Outcome(road.(children := kept), false)
  }

  /** Start: the start area is switched on and the first tile is created at the start link. */
  function Start(prefabCount: nat, startLink: Link, roll: nat): (r: Outcome)
    ensures r.road.startAreaActive
    ensures r.thrown <==> prefabCount == 0
    ensures !r.thrown ==> r.road.children == [NewTile(prefabCount, startLink, roll)]
  {
    CreateNewTile(Road(prefabCount, [], true), startLink, roll)
  }

  // ----- sequences of creations -----

  /** A creation request: the link and the random draw used for it. */
  datatype Entry = Entry(link: Link, roll: nat)

  function Run(road: Road, entries: seq<Entry>): Road
    decreases |entries|
  {
    if |entries| == 0 then road else Run(CreateNewTile(road, entries[0].link, entries[0].roll).road, entries[1..])
  }

  function NewTiles(prefabCount: nat, entries: seq<Entry>): seq<Tile>
    requires prefabCount > 0
    decreases |entries|
  {
    if |entries| == 0 then []
    else [NewTile(prefabCount, entries[0].link, entries[0].roll)] + NewTiles(prefabCount, entries[1..])
  }

  lemma LastTwoAbsorbs<T>(a: seq<T>, b: seq<T>)
    ensures LastTwo(LastTwo(a) + b) == LastTwo(a + b)
  {
    if |a| > 2 {
      var k := LastTwo(a);
      if |b| >= 2 {
        assert (k + b)[|k + b| - 2..] == b[|b| - 2..];
        assert (a + b)[|a + b| - 2..] == b[|b| - 2..];
      } else if |b| == 1 {
        assert (k + b) == [a[|a| - 2], a[|a| - 1], b[0]];
        assert (a + b)[|a + b| - 2..] == [a[|a| - 1], b[0]];
      } else {
        assert k + b == k && a + b == a;
      }
    }
  }

  /** One creation on a window of at most two keeps the last two of the window and the new tile. */
  lemma CreateKeepsLastTwo(road: Road, link: Link, roll: nat)
    requires road.prefabCount > 0
    requires |road.children| <= 2
    ensures var next := CreateNewTile(road, link, roll).road;
      && next.prefabCount == road.prefabCount
      && |next.children| <= 2
      && next.children == LastTwo(road.children + [NewTile(road.prefabCount, link, roll)])
  {
    var children := road.children + [NewTile(road.prefabCount, link, roll)];
    if |children| > 2 {
      assert children[1..] == children[|children| - 2..];
    }
  }

  lemma Associate<T>(a: seq<T>, b: seq<T>, c: seq<T>)
    ensures a + b + c == a + (b + c)
  {
  }

  /**
    The sliding window: starting from at most two tiles, after any sequence of
    creations the road holds exactly the last (at most two) of all tiles, old and
    new, in creation order.
   */
  lemma {:induction false} WindowHoldsLastTwo(road: Road, entries: seq<Entry>)
    requires road.prefabCount > 0
    requires |road.children| <= 2
    ensures Run(road, entries).children == LastTwo(road.children + NewTiles(road.prefabCount, entries))
    decreases |entries|
  {
    if |entries| > 0 {
      var t := NewTile(road.prefabCount, entries[0].link, entries[0].roll);
      var next := CreateNewTile(road, entries[0].link, entries[0].roll).road;
      CreateKeepsLastTwo(road, entries[0].link, entries[0].roll);
      WindowHoldsLastTwo(next, entries[1..]);
      var rest := NewTiles(road.prefabCount, entries[1..]);
      LastTwoAbsorbs(road.children + [t], rest);
      Associate(road.children, [t], rest);
    }
  }
}
