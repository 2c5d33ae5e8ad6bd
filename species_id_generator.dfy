/** The single-core species id generator: a counter that starts above every
    id of the species it is given. */
module SpeciesIds {
  import opened Wrappers
  import opened Model

  /** Every species of the list carries an id. */
  predicate AllIdentified(species: seq<Species>)
  {
    forall i :: 0 <= i < |species| ==> species[i].id.Some?
  }

  /** The largest id of a non-empty list of identified species. */
  function MaxId(species: seq<Species>): (m: int)
    requires |species| > 0 && AllIdentified(species)
    ensures exists i :: 0 <= i < |species| && species[i].id.value == m
    ensures forall i :: 0 <= i < |species| ==> species[i].id.value <= m
  {
    if |species| == 1 then species[0].id.value
    else
      var rest := MaxId(species[1..]);
      assert forall i :: 1 <= i < |species| ==> species[i] == species[1..][i - 1];
      if species[0].id.value >= rest then species[0].id.value else rest
  }

  /** The first id a generator built from `existing` hands out: 0 without a
      list or with an empty one, else one more than the largest id. */
  function FirstId(existing: Option<seq<Species>>): (n: int)
    requires existing.Some? ==> AllIdentified(existing.value)
    ensures existing.None? || existing.value == [] ==> n == 0
    ensures existing.Some? ==> forall i :: 0 <= i < |existing.value| ==> existing.value[i].id.value < n
    ensures existing.Some? && existing.value != [] ==>
      n == MaxId(existing.value) + 1
      && exists i :: 0 <= i < |existing.value| && existing.value[i].id.value == n - 1
  {
    if existing.None? || |existing.value| == 0 then 0 else MaxId(existing.value) + 1
  }

  class SpeciesIdGenerator {
    var nextId: int
    /** The ids of the existing species and those handed out so far. */
    ghost var taken: set<int>

    ghost predicate Valid()
      reads this
    {
      forall t :: t in taken ==> t < nextId
    }

    /** Requires every given species to carry an id (a missing one makes the
        maximum raise). */
    constructor (existing: Option<seq<Species>>)
      requires existing.Some? ==> AllIdentified(existing.value)
      ensures Valid()
      ensures nextId == FirstId(existing)
      ensures taken == if existing.None? then {} else set i | 0 <= i < |existing.value| :: existing.value[i].id.value
    {
      if existing.None? || |existing.value| == 0 {
        nextId := 0;
      } else {
        nextId := MaxId(existing.value) + 1;
      }
      taken := if existing.None? then {} else set i | 0 <= i < |existing.value| :: existing.value[i].id.value;
    }

    /** Hands out `nextId` and increments it; the id is new. */
    method GetSpeciesId() returns (id: int)
      requires Valid()
      modifies this
      ensures Valid()
      ensures id == old(nextId) && nextId == id + 1
      ensures id !in old(taken) && forall t :: t in old(taken) ==> t < id
      ensures taken == old(taken) + {id}
    {
      id := nextId;
      nextId := nextId + 1;
      taken := taken + {id};
    }
  }

  /** Successive ids strictly increase, and from a fresh generator they are 0, 1, ... */
  method IdsFromEmpty() returns (first: int, second: int)
    ensures first == 0 && second == 1
  {
    var g := new SpeciesIdGenerator(None);
    first := g.GetSpeciesId();
    second := g.GetSpeciesId();
  }

  /** Generator built from species with ids 4 and 6 hands out 7, then 8. */
  method IdsAfterExisting() returns (first: int, second: int)
    ensures first == 7 && second == 8
  {
    var existing := [Species(Some(4), null, []), Species(Some(6), null, [])];
    assert MaxId(existing) == 6 by {
      assert existing[1..] == [Species(Some(6), null, [])];
    }
    var g := new SpeciesIdGenerator(Some(existing));
    first := g.GetSpeciesId();
    second := g.GetSpeciesId();
  }
}
