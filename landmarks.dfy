/** Hand landmarks as the pose estimator delivers them, and the id lookup table built from them. */
module Landmarks {

  /** A pixel position (x, y); y grows downward. */
  type Point = (int, int)

  /** One (id, x, y) sample of a hand skeleton. */
  datatype Landmark = Landmark(id: int, x: int, y: int)

  /** `dict([(id, (x, y)) for id, x, y in landmark_list])`: every id of the list
      is a key, and a later entry with the same id overwrites an earlier one. */
  function LandmarkMap(list: seq<Landmark>): map<int, Point>
  {
    if list == [] then map[]
    else
      var last := list[|list| - 1];
      LandmarkMap(list[..|list| - 1])[last.id := (last.x, last.y)]
  }

  /** The keys of the table are exactly the ids in the list. */
  lemma {:induction false} LandmarkMapKeys(list: seq<Landmark>, id: int)
    ensures id in LandmarkMap(list) <==> exists k :: 0 <= k < |list| && list[k].id == id
  {
    if list != [] {
      var init := list[..|list| - 1];
      LandmarkMapKeys(init, id);
      if exists k :: 0 <= k < |list| && list[k].id == id {
        var k :| 0 <= k < |list| && list[k].id == id;
        if k < |list| - 1 {
          assert init[k].id == id;
        }
      }
      if exists k :: 0 <= k < |init| && init[k].id == id {
        var k :| 0 <= k < |init| && init[k].id == id;
        assert list[k].id == id;
      }
    }
  }

  /** An entry that no later entry shadows is what the table holds for its id. */
  lemma {:induction false} LandmarkMapLastWins(list: seq<Landmark>, k: nat)
    requires k < |list|
    requires forall j :: k < j < |list| ==> list[j].id != list[k].id
    ensures list[k].id in LandmarkMap(list)
    ensures LandmarkMap(list)[list[k].id] == (list[k].x, list[k].y)
  {
    if k < |list| - 1 {
      var init := list[..|list| - 1];
      forall j | k < j < |init| ensures init[j].id != init[k].id {
        assert init[j] == list[j];
      }
      LandmarkMapLastWins(init, k);
    }
  }

  /** The list `get_hand_position` returns for a detected hand: the 21
      landmarks enumerated in order, so the k-th entry has id k. */
  predicate IsHand(list: seq<Landmark>)
  {
    |list| == 21 && forall k :: 0 <= k < |list| ==> list[k].id == k
  }

  /** For a detected hand the table has exactly the ids 0..20, each mapped to its own entry. */
  lemma HandMap(list: seq<Landmark>)
    requires IsHand(list)
    ensures forall id :: id in LandmarkMap(list) <==> 0 <= id <= 20
    ensures forall k :: 0 <= k < 21 ==> LandmarkMap(list)[k] == (list[k].x, list[k].y)
  {
    forall id ensures id in LandmarkMap(list) <==> 0 <= id <= 20 {
      LandmarkMapKeys(list, id);
      if 0 <= id <= 20 {
        assert list[id].id == id;
      }
    }
    forall k | 0 <= k < 21 ensures LandmarkMap(list)[k] == (list[k].x, list[k].y) {
      LandmarkMapLastWins(list, k);
    }
  }
}
