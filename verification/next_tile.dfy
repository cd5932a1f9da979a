/**
  The trigger at the start of each track tile: when the player enters it, the next
  tile is created at this tile's link and then the bit is asked to show its true
  state. There is no de-duplication: every entry does both.
 */
module NextTile {
  import opened Common
  import RoadTiles
  import Bit

  /** The part of the scene the trigger acts on: the track and the bit's state sequencer. */
  datatype Level = Level(road: RoadTiles.Road, bit: Bit.Sequencer)

  /** The calls the trigger makes, in order. */
  datatype Call = CreateTile(link: RoadTiles.Link) | TriggerBit(state: bool)

  datatype Entered = Entered(level: Level, calls: seq<Call>)

  const PlayerTag := "Player"

  /**
    A collider tagged `tag` enters the trigger of a tile whose link is `link`; `roll`
    is the random draw of the tile creation. If the creation aborts on an empty
    prefab list the bit is not asked.
   */
  function OnTriggerEnter(lv: Level, tag: string, link: RoadTiles.Link, roll: nat): (r: Entered)
    ensures tag != PlayerTag ==> r == Entered(lv, [])
    ensures tag == PlayerTag && lv.road.prefabCount == 0 ==> r == Entered(lv, [CreateTile(link)])
    ensures tag == PlayerTag && lv.road.prefabCount > 0 ==>
      && r.calls == [CreateTile(link), TriggerBit(true)]
      && r.level.road == RoadTiles.CreateNewTile(lv.road, link, roll).road
      && r.level.bit == Bit.TriggerState(lv.bit, true)
  {
    if tag == PlayerTag then
      var created := RoadTiles.CreateNewTile(lv.road, link, roll);
      if created.thrown then Entered(lv, [CreateTile(link)])
      else Entered(Level(created.road, Bit.TriggerState(lv.bit, true)), [CreateTile(link), TriggerBit(true)])
    else Entered(lv, [])
  }

  /** One collider entering: its tag, the tile's link and the random draw. */
  datatype Entry = Entry(tag: string, link: RoadTiles.Link, roll: nat)

  function Run(lv: Level, entries: seq<Entry>): Entered
    decreases |entries|
  {
    if |entries| == 0 then Entered(lv, [])
    else
      var e := OnTriggerEnter(lv, entries[0].tag, entries[0].link, entries[0].roll);
      var rest := Run(e.level, entries[1..]);
      Entered(rest.level, e.calls + rest.calls)
  }

  function PlayerEntries(entries: seq<Entry>): nat
    decreases |entries|
  {
    if |entries| == 0 then 0 else (if entries[0].tag == PlayerTag then 1 else 0) + PlayerEntries(entries[1..])
  }

  function TrueTriggers(calls: seq<Call>): nat
    decreases |calls|
  {
    if |calls| == 0 then 0 else (if calls[0] == TriggerBit(true) then 1 else 0) + TrueTriggers(calls[1..])
  }

  /** Bit requests not yet finished: the one running and the ones waiting. */
  function Pending(q: Bit.Sequencer): nat {
    |q.queue| + (if q.running.Some? then 1 else 0)
  }

  lemma TrueTriggersAppend(a: seq<Call>, b: seq<Call>)
    ensures TrueTriggers(a + b) == TrueTriggers(a) + TrueTriggers(b)
    decreases |a|
  {
    if |a| > 0 {
      assert (a + b)[0] == a[0] && (a + b)[1..] == a[1..] + b;
      TrueTriggersAppend(a[1..], b);
    } else {
      assert a + b == b;
    }
  }

  /**
    With a non-empty prefab list, each player entry makes one tile creation
    followed by one true request, and each such request is held by the bit
    (running or queued) until its routine ends: none is merged with another.
   */
  lemma {:induction false} EveryPlayerEntryCounts(lv: Level, entries: seq<Entry>)
    requires lv.road.prefabCount > 0
    ensures TrueTriggers(Run(lv, entries).calls) == PlayerEntries(entries)
    ensures Pending(Run(lv, entries).level.bit) == Pending(lv.bit) + PlayerEntries(entries)
    decreases |entries|
  {
    if |entries| > 0 {
      var e := OnTriggerEnter(lv, entries[0].tag, entries[0].link, entries[0].roll);
      EveryPlayerEntryCounts(e.level, entries[1..]);
      TrueTriggersAppend(e.calls, Run(e.level, entries[1..]).calls);
      if entries[0].tag == PlayerTag {
        assert TrueTriggers(e.calls) == 1 by {
          assert e.calls == [CreateTile(entries[0].link), TriggerBit(true)];
          assert e.calls[1..] == [TriggerBit(true)];
        }
      }
    }
  }
}
