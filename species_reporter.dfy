/** `species_reporter`: for every species id, the generations it was seen
    in and its size in each, plus the smallest and largest generation
    number reported. */
module SpeciesReporting {
  import opened Wrappers
  import opened Model
  import opened Collections

  /** The two parallel lists stored under a species id. */
  datatype SizeHistory = SizeHistory(generations: seq<int>, memberSizes: seq<nat>)

  function SpeciesId(s: Species): Option<int>
  {
    s.id
  }

  /** One species of a generation recorded: its lists are extended by the
      generation number and its size, or started with them. */
  function RecordSpecies(d: map<Option<int>, SizeHistory>, number: int, s: Species): map<Option<int>, SizeHistory>
  {
    if s.id in d then d[s.id := SizeHistory(d[s.id].generations + [number], d[s.id].memberSizes + [|s.members|])]
    else d[s.id := SizeHistory([number], [|s.members|])]
  }

  /** The species loop of `add_generation_species_reporter`. */
  function RecordAll(d: map<Option<int>, SizeHistory>, number: int, speciesList: seq<Species>): map<Option<int>, SizeHistory>
  {
    if speciesList == [] then d
    else RecordSpecies(RecordAll(d, number, DropLast(speciesList)), number, Last(speciesList))
  }

  /** `min(current, number)` unless nothing was reported yet. */
  function LowerBound(current: Option<int>, number: int): int
  {
    if current.None? then number else if current.value <= number then current.value else number
  }

  /** `max(current, number)` unless nothing was reported yet. */
  function UpperBound(current: Option<int>, number: int): int
  {
    if current.None? then number else if current.value >= number then current.value else number
  }

  /** The reported bounds are the extremes of all generation numbers seen. */
  lemma BoundsAreExtremes(current: Option<int>, number: int)
    ensures LowerBound(current, number) <= number <= UpperBound(current, number)
    ensures current.Some? ==> LowerBound(current, number) <= current.value <= UpperBound(current, number)
    ensures LowerBound(current, number) == number || (current.Some? && LowerBound(current, number) == current.value)
    ensures UpperBound(current, number) == number || (current.Some? && UpperBound(current, number) == current.value)
  {
  }

  /** What is stored under an id before the generation is added. */
  function Before(d: map<Option<int>, SizeHistory>, id: Option<int>): SizeHistory
  {
    if id in d then d[id] else SizeHistory([], [])
  }

  function Sizes(ss: seq<Species>): seq<nat>
  {
    seq(|ss|, i requires 0 <= i < |ss| => |ss[i].members|)
  }

  /** Every id present is kept and every species' id is added. */
  lemma {:induction false} RecordAllKeys(d: map<Option<int>, SizeHistory>, number: int, ss: seq<Species>, id: Option<int>)
    ensures id in RecordAll(d, number, ss) <==> id in d || exists i :: 0 <= i < |ss| && ss[i].id == id
  {
    if ss != [] {
      var init := DropLast(ss);
      RecordAllKeys(d, number, init, id);
      assert forall i :: 0 <= i < |init| ==> init[i] == ss[i];
    }
  }

  /** The lists under id after recording ss: the lists before, extended by
      the generation number once per species of ss with that id and by
      those species' sizes, in order. */
  function Expected(d: map<Option<int>, SizeHistory>, number: int, ss: seq<Species>, id: Option<int>): SizeHistory
  {
    var picked := Select(ss, SpeciesId, id);
    SizeHistory(Before(d, id).generations + seq(|picked|, _ => number), Before(d, id).memberSizes + Sizes(picked))
  }

  lemma RecordSpeciesStored(m: map<Option<int>, SizeHistory>, number: int, s: Species, id: Option<int>)
    ensures Before(RecordSpecies(m, number, s), id)
         == if s.id == id then SizeHistory(Before(m, id).generations + [number], Before(m, id).memberSizes + [|s.members|])
            else Before(m, id)
  {
  }

  lemma SizesSnoc(ss: seq<Species>, s: Species)
    ensures Sizes(ss + [s]) == Sizes(ss) + [|s.members|]
  {
  }

  lemma RepeatSnoc(n: nat, number: int)
    ensures seq(n + 1, _ => number) == seq(n, _ => number) + [number]
  {
  }

  lemma ExpectedSnoc(d: map<Option<int>, SizeHistory>, number: int, ss: seq<Species>, id: Option<int>)
    requires ss != []
    ensures var e := Expected(d, number, DropLast(ss), id);
      Expected(d, number, ss, id)
      == if Last(ss).id == id then SizeHistory(e.generations + [number], e.memberSizes + [|Last(ss).members|]) else e
  {
    var p := Select(DropLast(ss), SpeciesId, id);
    if Last(ss).id == id {
      assert Select(ss, SpeciesId, id) == p + [Last(ss)];
      SizesSnoc(p, Last(ss));
      RepeatSnoc(|p|, number);
    }
  }

  /** Under each id, the generation number is appended once per species of
      the generation with that id, together with that species' size; ids
      that do not occur in the generation keep their lists. */
  lemma {:induction false} RecordAllEffect(d: map<Option<int>, SizeHistory>, number: int, ss: seq<Species>, id: Option<int>)
    ensures Before(RecordAll(d, number, ss), id) == Expected(d, number, ss, id)
  {
    if ss == [] {
      assert Select(ss, SpeciesId, id) == [];
    } else {
      RecordAllEffect(d, number, DropLast(ss), id);
      RecordSpeciesStored(RecordAll(d, number, DropLast(ss)), number, Last(ss), id);
      ExpectedSnoc(d, number, ss, id);
    }
  }

  /** Every id's two lists have the same length, and adding a generation
      keeps it so. */
  ghost predicate Balanced(d: map<Option<int>, SizeHistory>)
  {
    forall id :: id in d ==> |d[id].generations| == |d[id].memberSizes|
  }

  lemma {:induction false} RecordAllBalanced(d: map<Option<int>, SizeHistory>, number: int, ss: seq<Species>)
    requires Balanced(d)
    ensures Balanced(RecordAll(d, number, ss))
  {
    if ss != [] {
      RecordAllBalanced(d, number, DropLast(ss));
    }
  }

  class SpeciesReporter {
    var minGeneration: Option<int>
    var maxGeneration: Option<int>
    var speciesSizeDict: map<Option<int>, SizeHistory>

    constructor ()
      ensures minGeneration == None && maxGeneration == None && speciesSizeDict == map[]
    {
      minGeneration := None;
      maxGeneration := None;
      speciesSizeDict := map[];
    }
  }

  /** `add_generation_species_reporter`: updates the bounds, then records
      every species of the generation; the same reporter is returned. */
  method AddGenerationSpeciesReporter(reporter: SpeciesReporter, generation: Generation) returns (r: SpeciesReporter)
    modifies reporter
    ensures r == reporter
    ensures reporter.minGeneration == Some(LowerBound(old(reporter.minGeneration), generation.number))
    ensures reporter.maxGeneration == Some(UpperBound(old(reporter.maxGeneration), generation.number))
    ensures reporter.speciesSizeDict == RecordAll(old(reporter.speciesSizeDict), generation.number, generation.speciesList)
  {
    var number := generation.number;
    reporter.minGeneration := Some(LowerBound(reporter.minGeneration, number));
    reporter.maxGeneration := Some(UpperBound(reporter.maxGeneration, number));
    ghost var d0 := reporter.speciesSizeDict;
    var speciesList := generation.speciesList;
    for i := 0 to |speciesList|
      invariant reporter.speciesSizeDict == RecordAll(d0, number, speciesList[..i])
      invariant reporter.minGeneration == Some(LowerBound(old(reporter.minGeneration), number))
      invariant reporter.maxGeneration == Some(UpperBound(old(reporter.maxGeneration), number))
    {
      var species := speciesList[i];
      assert DropLast(speciesList[..i + 1]) == speciesList[..i] && Last(speciesList[..i + 1]) == species;
      if species.id in reporter.speciesSizeDict {
        var entry := reporter.speciesSizeDict[species.id];
        reporter.speciesSizeDict := reporter.speciesSizeDict[species.id :=
          SizeHistory(entry.generations + [number], entry.memberSizes + [|species.members|])];
      } else {
        reporter.speciesSizeDict := reporter.speciesSizeDict[species.id := SizeHistory([number], [|species.members|])];
      }
    }
    assert speciesList[..|speciesList|] == speciesList;
    r := reporter;
  }

  /** A species with the given id and size. */
  predicate Sized(s: Species, id: int, size: nat)
  {
    s.id == Some(id) && |s.members| == size
  }

  /** Recording a list with one more species records it last. */
  lemma RecordAllSnoc(d: map<Option<int>, SizeHistory>, number: int, ss: seq<Species>, s: Species)
    ensures RecordAll(d, number, ss + [s]) == RecordSpecies(RecordAll(d, number, ss), number, s)
  {
    assert DropLast(ss + [s]) == ss && Last(ss + [s]) == s;
  }

  /** The dictionary after each of the three generations below. */
  function AfterThree(): map<Option<int>, SizeHistory>
  {
    map[Some(1) := SizeHistory([3], [7])]
  }

  function AfterFour(): map<Option<int>, SizeHistory>
  {
    map[Some(1) := SizeHistory([3, 4], [7, 3]), Some(2) := SizeHistory([4], [3]), Some(3) := SizeHistory([4], [1])]
  }

  function AfterFive(): map<Option<int>, SizeHistory>
  {
    map[Some(1) := SizeHistory([3, 4, 5], [7, 3, 3]), Some(2) := SizeHistory([4], [3]),
        Some(3) := SizeHistory([4, 5], [1, 4])]
  }

  /** Three generations: 3 with species 1 of 7 members; 4 with species 1,
      2 and 3 of 3, 3 and 1 members; 5 with species 1 and 3 of 3 and 4
      members. */
  lemma ThreeGenerationTrace(a: Species, b: Species, c: Species, e: Species, f: Species, g: Species)
    requires Sized(a, 1, 7) && Sized(b, 1, 3) && Sized(c, 2, 3) && Sized(e, 3, 1) && Sized(f, 1, 3) && Sized(g, 3, 4)
    ensures RecordAll(RecordAll(RecordAll(map[], 3, [a]), 4, [b, c, e]), 5, [f, g]) == AfterFive()
  {
    FirstGeneration(a);
    SecondGeneration(b, c, e);
    ThirdGeneration(f, g);
  }

  /** The bounds over generations 3, 4 and 5 end at 3 and 5. */
  lemma ThreeGenerationBounds()
    ensures LowerBound(Some(LowerBound(Some(LowerBound(None, 3)), 4)), 5) == 3
    ensures UpperBound(Some(UpperBound(Some(UpperBound(None, 3)), 4)), 5) == 5
  {
  }

  lemma FirstGeneration(a: Species)
    requires Sized(a, 1, 7)
    ensures RecordAll(map[], 3, [a]) == AfterThree()
  {
    RecordAllSnoc(map[], 3, [], a);
    assert [] + [a] == [a];
  }

  lemma SecondGeneration(b: Species, c: Species, e: Species)
    requires Sized(b, 1, 3) && Sized(c, 2, 3) && Sized(e, 3, 1)
    ensures RecordAll(AfterThree(), 4, [b, c, e]) == AfterFour()
  {
    var d1 := AfterThree();
    RecordAllSnoc(d1, 4, [], b);
    assert [] + [b] == [b];
    var m1 := d1[Some(1) := SizeHistory([3] + [4], [7] + [3])];
    assert RecordAll(d1, 4, [b]) == m1;
    assert Some(2) !in m1;
    RecordAllSnoc(d1, 4, [b], c);
    assert [b] + [c] == [b, c];
    var m2 := m1[Some(2) := SizeHistory([4], [3])];
    assert RecordAll(d1, 4, [b, c]) == m2;
    assert Some(3) !in m2;
    RecordAllSnoc(d1, 4, [b, c], e);
    assert [b, c] + [e] == [b, c, e];
    var m3 := m2[Some(3) := SizeHistory([4], [1])];
    assert RecordAll(d1, 4, [b, c, e]) == m3;
    FourByUpdates();
  }

  lemma FourByUpdates()
    ensures AfterThree()[Some(1) := SizeHistory([3] + [4], [7] + [3])][Some(2) := SizeHistory([4], [3])]
              [Some(3) := SizeHistory([4], [1])] == AfterFour()
  {
    assert [3] + [4] == [3, 4] && [7] + [3] == [7, 3];
  }

  lemma ThirdGeneration(f: Species, g: Species)
    requires Sized(f, 1, 3) && Sized(g, 3, 4)
    ensures RecordAll(AfterFour(), 5, [f, g]) == AfterFive()
  {
    var d2 := AfterFour();
    assert Some(1) in d2 && d2[Some(1)] == SizeHistory([3, 4], [7, 3]);
    RecordAllSnoc(d2, 5, [], f);
    assert [] + [f] == [f];
    var m1 := d2[Some(1) := SizeHistory([3, 4] + [5], [7, 3] + [3])];
    assert RecordAll(d2, 5, [f]) == m1;
    assert Some(3) in m1 && m1[Some(3)] == SizeHistory([4], [1]);
    RecordAllSnoc(d2, 5, [f], g);
    assert [f] + [g] == [f, g];
    var m2 := m1[Some(3) := SizeHistory([4] + [5], [1] + [4])];
    assert RecordAll(d2, 5, [f, g]) == m2;
    FiveByUpdates();
  }

  lemma FiveByUpdates()
    ensures AfterFour()[Some(1) := SizeHistory([3, 4] + [5], [7, 3] + [3])]
              [Some(3) := SizeHistory([4] + [5], [1] + [4])] == AfterFive()
  {
    assert [3, 4] + [5] == [3, 4, 5] && [7, 3] + [3] == [7, 3, 3];
    assert [4] + [5] == [4, 5] && [1] + [4] == [1, 4];
  }
}
