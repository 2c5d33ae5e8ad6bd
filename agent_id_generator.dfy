/** The single-core agent id generator: a counter starting at 0. */
module AgentIds {

  class AgentIdGenerator {
    var nextId: int

    constructor ()
      ensures nextId == 0
    {
      nextId := 0;
    }

    /** Hands out `nextId` and increments it. */
    method GetAgentId() returns (id: int)
      modifies this
      ensures id == old(nextId) && nextId == id + 1
    {
      id := nextId;
      nextId := nextId + 1;
    }
  }

  /** The ids of n successive calls on a fresh generator: exactly 0 .. n-1 in
      order, so no id appears twice. */
  method FirstIds(n: nat) returns (ids: seq<int>)
    ensures ids == seq(n, i => i)
    ensures forall i, j :: 0 <= i < j < |ids| ==> ids[i] < ids[j]
  {
    var g := new AgentIdGenerator();
    ids := [];
    while |ids| < n
      invariant |ids| <= n
      invariant ids == seq(|ids|, i => i)
      invariant g.nextId == |ids|
    {
      var id := g.GetAgentId();
      ids := ids + [id];
    }
  }
}
