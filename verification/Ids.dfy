/** Lists of ids, in the order they were registered. */
module Ids {
  ghost predicate Distinct(ids: seq<nat>) {
    forall i, j :: 0 <= i < j < |ids| ==> ids[i] != ids[j]
  }

  function Without(ids: seq<nat>, id: nat): (rest: seq<nat>)
    ensures forall x :: x in rest <==> x in ids && x != id
    ensures Distinct(ids) ==> Distinct(rest)
  {
    if ids == [] then []
    else
      var tail := Without(ids[1..], id);
      assert Distinct(ids) ==> Distinct(ids[1..]) && ids[0] !in ids[1..];
      (if ids[0] == id then [] else [ids[0]]) + tail
  }
}
