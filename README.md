# MPI_NEAT genetic bookkeeping in Dafny

This project models the bookkeeping core of MPI_NEAT, a Python implementation
of NEAT (NeuroEvolution of Augmenting Topologies), and proves properties of
that model. The core covers:

- the genome records: nodes, connections and genomes, as the services build them;
- the single-core id generators: innovation numbers, with their memo of endpoint
  pairs, species ids and agent ids;
- the reproduction operators:
  - deep copies;
  - initial weights and biases;
  - weight and bias mutation with clamping;
  - adding a connection and adding a node;
  - crossover;
- the genetic distance between two genomes;
- building the first generation:
  - a fully connected minimal genome;
  - the population copied from it;
  - the renumbering of a supplied genome;
- the small utilities:
  - grouping connections by output node and nodes by x-position;
  - picking the best agent;
  - the per-species size history;
  - the `TimeReporter` and `StopWatch` state machines;
  - the speed-up arithmetic;
- the prime tests of the MPI tutorial scripts, and the block-cyclic split of the
  search range over MPI ranks.

How the model is shaped:

- **Values and objects.**
  - Nodes and connections are values: each genome owns its copies.
  - `Genome`, `RandomState`, the generators, `StopWatch`, `TimeReporter`,
    `TimeReporterEntry` and `SpeciesReporter` are classes, because the source
    updates their fields in place.
- **Loops.** Every loop of the source is a `while` or `for` loop with invariants.
  Each one is proved equal to a specification function, and the lemmas about that
  function state the guarantees. Comprehensions, `filter`, `sorted`, `any`,
  `next(...)` and `max(...)` are expressions in the source and stay functions over
  sequences, sets and maps in the model.
- **Randomness.** A `RandomState` is a fixed, infinite stream of raw draws and a
  position. Each call consumes the next draw and reads it as asked:
  - a uniform value within given bounds;
  - a coin `uniform(0, 1) <= p`;
  - an index below a bound;
  - a normal deviate.

  `RandomState(seed)` is a caller-supplied function from seeds to streams.
- **Clocks.** The time is a `now` parameter of every callback.
- **Errors.** Python exceptions become `Result` or `Outcome` values. This covers
  an unknown mutation type, an empty choice, a missing node, a division by zero,
  and an empty population. When an operator has already changed the genome before
  it raises, the model keeps that partial change. Three raises are preconditions
  instead, as listed under "Left out":
  - the `assert`s of `TimeReporter`;
  - the length `assert` of `BasicNeuron`;
  - the `TypeError` that `max` raises over a species without an id.

Where the code and the repository's description of it disagree, the model follows
the code:

- the distance divides by the longer gene list, and does not use
  `compatibility_genome_size_threshold`;
- `set_new_genome_weights` does not set the genome's seed;
- the colours are those of `_get_color_for_node_type`, not the ones its test expects.

## Model

| member | source | states |
|---|---|---|
| AgentIds.AgentIdGenerator.constructor | code/src/neat_single_core/agent_id_generator_single_core.py:6-7 | a new generator's counter is 0 |
| AgentIds.AgentIdGenerator.GetAgentId | code/src/neat_single_core/agent_id_generator_single_core.py:9-12 | returns the current counter and advances it by one |
| AgentIds.FirstIds | code/src/neat_single_core/agent_id_generator_single_core.py:9-12 | n calls on a fresh generator return exactly 0, 1, ..., n-1, strictly increasing, so no id repeats |
| SpeciesIds.MaxId | code/src/neat_single_core/species_id_generator_single_core.py:13 | the result is the id of some species of the list and no species has a larger id |
| SpeciesIds.FirstId | code/src/neat_single_core/species_id_generator_single_core.py:9-13 | with no list or an empty one the first id is 0; otherwise it is one above the largest existing id. Some species carries the id just below it, and every existing id is below it |
| SpeciesIds.SpeciesIdGenerator.constructor | code/src/neat_single_core/species_id_generator_single_core.py:9-13 | the counter starts at 0, or one above the largest existing id; every existing id is below it |
| SpeciesIds.SpeciesIdGenerator.GetSpeciesId | code/src/neat_single_core/species_id_generator_single_core.py:15-18 | returns the counter and advances it; the id is above every existing or earlier id, so it is new |
| SpeciesIds.IdsFromEmpty | code/src/neat_single_core/species_id_generator_single_core.py:9-18 | a generator without species hands out 0, then 1 |
| SpeciesIds.IdsAfterExisting | code/src/neat_single_core/species_id_generator_single_core.py:12-18 | a generator over species with ids 4 and 6 hands out 7, then 8 |
| InnovationNumbers.LookupFindsFirstMatch | code/src/neat_single_core/inno_number_generator_single_core.py:36-38 | the memo lookup fails exactly when no record matches the ordered pair, and otherwise returns the number of the first matching record |
| InnovationNumbers.Scan | code/src/neat_single_core/inno_number_generator_single_core.py:36-38 | the scan loop over the memo list returns what the lookup specifies |
| InnovationNumbers.AppendKeepsWellFormed | code/src/neat_single_core/inno_number_generator_single_core.py:41-44 | recording a new pair under the counter keeps the memo's numbers increasing and below the advanced counter, with no pair recorded twice |
| InnovationNumbers.LookupAfterAppend | code/src/neat_single_core/inno_number_generator_single_core.py:41-42 | right after a pair is recorded, looking it up gives its number |
| InnovationNumbers.LookupOtherAfterAppend | code/src/neat_single_core/inno_number_generator_single_core.py:41-42 | recording one pair does not change the lookup of any other pair |
| InnovationNumbers.IssueFreshOrMemoised | code/src/neat_single_core/inno_number_generator_single_core.py:24-44 | a request either takes a new number (the old counter, above every recorded number) and advances the counter by one, or it takes a recorded number and changes nothing; either way the table stays well formed and the number is below the counter |
| InnovationNumbers.RepeatIsMemoised | code/src/neat_single_core/inno_number_generator_single_core.py:36-38 | asking again for the same ordered pair returns the same number and leaves the table unchanged |
| InnovationNumbers.ReversedPairIsDistinct | code/src/neat_single_core/inno_number_generator_single_core.py:37 | pairs are ordered: when neither (a, b) nor (b, a) is recorded, the two get different numbers |
| InnovationNumbers.InitialRequestsCount | code/src/neat_single_core/inno_number_generator_single_core.py:33-34 | k requests without endpoints on counter c return c, c+1, ..., c+k-1 and leave the memo untouched |
| InnovationNumbers.NodeNumberTrace | code/tests/neat_single_core/test_inno_number_generator_single_core.py:41-56 | the node request sequence of the test gives 0, 1, 2, 2, 3, 4, 3, 5 |
| InnovationNumbers.ConnectionNumberTrace | code/tests/neat_single_core/test_inno_number_generator_single_core.py:58-74 | the connection request sequence of the test gives 0, 1, 2, 2, 3, 4, 4, 2, 5 |
| InnovationNumbers.NextGenerationTrace | code/tests/neat_single_core/test_inno_number_generator_single_core.py:13-39 | after a new generation a node pair already numbered 1 is numbered anew (2), while a connection pair keeps its number 1 and new pairs continue the counter |
| InnovationNumbers.InnovationNumberGenerator.constructor | code/src/neat_single_core/inno_number_generator_single_core.py:9-14 | both counters start at 0 and both memo lists empty |
| InnovationNumbers.InnovationNumberGenerator.NextGeneration | code/src/neat_single_core/inno_number_generator_single_core.py:16-22 | the node memo is emptied; the node counter and the whole connection table are unchanged |
| InnovationNumbers.InnovationNumberGenerator.GetNodeInnovationNumber | code/src/neat_single_core/inno_number_generator_single_core.py:24-44 | the number and the new node table are those of one request on the old table; a new number is above every node number handed out before, a memoised one was handed out before; the connection table is untouched |
| InnovationNumbers.InnovationNumberGenerator.GetConnectionInnovationNumber | code/src/neat_single_core/inno_number_generator_single_core.py:46-65 | the same for the connection table, leaving the node table untouched |
| InnovationNumbers.NumberIn | code/src/neat_single_core/inno_number_generator_single_core.py:33-44 | the body both getters share computes one request on a table |
| InnovationNumbers.FirstConnectionAfterNodes | code/tests/neat_single_core/test_inno_number_generator_single_core.py:41-56 | a plain and a paired node request on a fresh generator give 0 and 1, and the first connection number is still 0: the two counters are independent |
| Reproduction.DeepCopyNode | code/src/neat_core/service/reproduction_service.py:24-30 | the copy carries every field of the node unchanged |
| Reproduction.DeepCopyConnection | code/src/neat_core/service/reproduction_service.py:33-40 | the copy carries every field of the connection unchanged |
| Reproduction.DeepCopyGenome | code/src/neat_core/service/reproduction_service.py:12-21 | a new genome object with the same seed and the same node and connection lists, in order |
| Reproduction.Clip | code/src/neat_core/service/reproduction_service.py:131-132 | `np.clip` lands between the bounds, keeps a value already inside them, and gives the upper bound when the bounds are crossed |
| Reproduction.MutateValueBranches | code/src/neat_core/service/reproduction_service.py:115-132 | without the first coin the value is unchanged; a re-draw lies in the initial range and is not clamped; a perturbation is clamped into [min, max]; the only failure is an unknown mutation type in the perturb branch |
| Reproduction.DrawMutation | code/src/neat_core/service/reproduction_service.py:115-132 | the draws of one gene's mutation, taken from the generator, follow that specification |
| Reproduction.MutateWeightsBounds | code/src/neat_core/service/reproduction_service.py:113-133 | weight mutation changes only weights; each weight is unchanged, a re-draw in the initial range or a clamped perturbation; a known mutation type never raises |
| Reproduction.MutateWeightsFailureSticks | code/src/neat_core/service/reproduction_service.py:129 | after the raise the rest of the list is not visited |
| Reproduction.MutateWeights | code/src/neat_core/service/reproduction_service.py:105-133 | the connection list and the generator end as the specification of the whole pass says; a failure is an unknown mutation type; nodes and seed are untouched |
| Reproduction.MutateBiasBounds | code/src/neat_core/service/reproduction_service.py:81-102 | bias mutation changes only biases and never that of an INPUT node; each bias is unchanged, a re-draw in the initial range or a clamped perturbation; a known type never raises |
| Reproduction.MutateBiasFailureSticks | code/src/neat_core/service/reproduction_service.py:99 | after the raise the rest of the list is not visited |
| Reproduction.MutateBias | code/src/neat_core/service/reproduction_service.py:73-102 | the node list and the generator end as the specification says; connections and seed are untouched |
| Reproduction.InitialWeightsInRange | code/src/neat_core/service/reproduction_service.py:51-53 | every initial weight lies in the initial weight range and nothing but weights changes |
| Reproduction.SetNewGenomeWeights | code/src/neat_core/service/reproduction_service.py:43-55 | connection j gets the weight from draw k + j; one draw per connection; nodes and seed are untouched |
| Reproduction.InitialBiasInRange | code/src/neat_core/service/reproduction_service.py:66-69 | INPUT nodes keep their bias, every other bias lies in the initial bias range, nothing else changes |
| Reproduction.InitialBiasDraws | code/src/neat_core/service/reproduction_service.py:66-69 | one draw is consumed per non-INPUT node |
| Reproduction.SetNewGenomeBias | code/src/neat_core/service/reproduction_service.py:58-70 | the node list and the generator end as that specification says; connections and seed are untouched |
| NodeSorting.SortByXSortsAndPermutes | code/src/neat_core/service/reproduction_service.py:153-154 | sorting by x-position gives a list ordered by x-position with the same nodes, as often as before |
| NodeSorting.SortByXStable | code/src/neat_core/service/reproduction_service.py:153-154 | nodes sharing an x-position keep their relative order, as Python's stable sort does |
| StructuralMutation.TargetsMembers | code/src/neat_core/service/reproduction_service.py:163-171 | a node is a possible target exactly when it is HIDDEN or OUTPUT and, in a feed-forward network, lies strictly right of the input node |
| StructuralMutation.TryConnectChoosesNewEdge | code/src/neat_core/service/reproduction_service.py:160-186 | a chosen pair joins a node of the genome to a HIDDEN or OUTPUT node that is a target of it and not already linked from it |
| StructuralMutation.TryConnectRaisesOnlyWhenEmpty | code/src/neat_core/service/reproduction_service.py:160-161 | the tries loop raises only for an empty node list and never moves the generator backwards |
| StructuralMutation.AddConnectionAppendsNewEdge | code/src/neat_core/service/reproduction_service.py:136-195 | without a new connection the list is unchanged, and it raises only for a genome with no nodes; with one, exactly one connection is appended: enabled, with an initial-range weight, from a node of the genome to a HIDDEN or OUTPUT node, not yet linked, left to right when recurrence is off |
| StructuralMutation.DrawRound | code/src/neat_core/service/reproduction_service.py:161-184 | one round of the tries loop, taken from the generator, is one step of the specification |
| StructuralMutation.ChooseEndpoints | code/src/neat_core/service/reproduction_service.py:160-195 | the tries loop ends as the specification of the remaining tries says, with the generator at the position it names |
| StructuralMutation.MutateAddConnection | code/src/neat_core/service/reproduction_service.py:136-195 | the connection list, the generator and the connection table end as the specification says; nodes, seed and node table are untouched |
| StructuralMutation.ConnectSorted | code/src/neat_core/service/reproduction_service.py:157-195 | the part after the coin and the sort follows its specification |
| StructuralMutation.JoinNodes | code/src/neat_core/service/reproduction_service.py:186-193 | the new connection is numbered by the connection table, weighted by the next draw and appended |
| StructuralMutation.FindNode | code/src/neat_core/service/reproduction_service.py:218-219 | a found node belongs to the list and carries the number; none is found only when no node carries it |
| StructuralMutation.AddNodeSplitsConnection | code/src/neat_core/service/reproduction_service.py:198-242 | without a split nothing changes; a split raises EmptyChoice exactly for an empty connection list. It raises NodeNotFound exactly when an endpoint of the drawn connection is carried by no node, and then leaves that connection disabled and the nodes unchanged. A successful split disables one connection a -> b, appends one HIDDEN node halfway between a and b, with an initial-range bias and the activation of a or b, and appends a -> new with weight 1 and new -> b with the old weight, both enabled |
| StructuralMutation.MutateAddNode | code/src/neat_core/service/reproduction_service.py:198-242 | the genome's lists, the generator and both tables end as the specification says, including the disabled connection left behind by a raise on a missing endpoint |
| StructuralMutation.SplitConnection | code/src/neat_core/service/reproduction_service.py:222-240 | the split after the connection is chosen follows its specification |
| StructuralMutation.NumberSplit | code/src/neat_core/service/reproduction_service.py:224-236 | a node number for (a, b), then connection numbers for (a, new) and (new, b), in that order |
| Crossover.CrossNodesUpTo | code/src/neat_core/service/reproduction_service.py:260-274 | the node loop produces one child node per visited node of the fitter parent |
| Crossover.CrossConnectionsUpTo | code/src/neat_core/service/reproduction_service.py:276-297 | the connection loop produces one child connection per visited connection |
| Crossover.CrossNodesInherit | code/src/neat_core/service/reproduction_service.py:262-274 | each child node carries the number of the fitter parent's node at that place and is that node or the less fit parent's node with that number; a node the less fit parent lacks is inherited unchanged; only matching genes draw |
| Crossover.NodeIndexKeys | code/src/neat_core/service/reproduction_service.py:257 | the dictionary's keys are exactly the numbers the list carries |
| Crossover.CrossNodesSelf | code/src/neat_core/service/reproduction_service.py:257-274 | crossing a node list with distinct numbers with itself gives it back, whatever the coins say |
| Crossover.CrossConnectionsInherit | code/src/neat_core/service/reproduction_service.py:277-297 | each child connection has the fitter parent's number at that place; a disjoint or excess gene is inherited unchanged; a matching gene enabled in some parent is one of the two parents' genes unchanged; one disabled in both is one of them with its flag redrawn |
| Crossover.CrossConnectionsSelf | code/src/neat_core/service/reproduction_service.py:258-297 | crossing an enabled connection list with distinct numbers with itself gives it back |
| Crossover.CrossOverKeepsFitterStructure | code/src/neat_core/service/reproduction_service.py:245-299 | the child lists have the fitter parent's lengths and its innovation numbers place by place, so genes only in the less fit parent are never inherited |
| Crossover.CrossOver | code/src/neat_core/service/reproduction_service.py:245-299 | neither parent changes; the child lists and the generator end as the specification says |
| SpeciesService.Abs | code/src/neat_core/service/species_service.py:34 | `abs` is non-negative and equals the argument or its negation |
| SpeciesService.NumbersMembers | code/src/neat_core/service/species_service.py:12-13 | the set holds exactly the numbers the genes carry |
| SpeciesService.NumbersBound | code/src/neat_core/service/species_service.py:12-13 | a list carries at most as many numbers as it has genes |
| SpeciesService.CountedDistinct | code/src/neat_core/service/species_service.py:12-13 | a list carrying as many numbers as genes repeats no number |
| SpeciesService.DisjointIsSymmetricDifference | code/src/neat_core/service/species_service.py:16-21 | the disjoint count is the size of the symmetric difference and does not depend on the order of the genomes |
| SpeciesService.MatchingIndex | code/src/neat_core/service/species_service.py:27-28 | the index covers exactly the matching numbers, each mapped to a gene of the list carrying it |
| SpeciesService.MatchingIndexEntries | code/src/neat_core/service/species_service.py:27-28 | the filtered dictionary holds only matching numbers, and every entry is a gene of the list with that number |
| SpeciesService.GeneDistanceFormula | code/src/neat_core/service/species_service.py:11-38 | a term raises exactly when the genomes share no number (two empty lists included); otherwise it is the disjoint factor times the symmetric difference's size over the longer list's length, plus the matching factor times the loop's sum over the shared count |
| SpeciesService.GeneDistanceReadsNumberAndValue | code/src/neat_core/service/species_service.py:11-38 | a term reads nothing but each gene's number and its bias or weight |
| SpeciesService.DistanceIgnoresOtherFields | code/src/neat_core/service/species_service.py:29-34 | node types, activation functions, x-positions, endpoints and enabled flags do not affect the distance |
| SpeciesService.GapSymmetric | code/src/neat_core/service/species_service.py:34 | the summand for a shared number is the same whichever genome comes first |
| SpeciesService.DifferenceSumAsGaps | code/src/neat_core/service/species_service.py:31-34 | the loop adds one summand per matching gene of the second list, in list order |
| SpeciesService.MatchedKeysOnce | code/src/neat_core/service/species_service.py:31-32 | in a list with distinct numbers each shared number is visited once |
| SpeciesService.MatchingSumOverShared | code/src/neat_core/service/species_service.py:27-34 | for lists with distinct numbers the loop's sum is the sum over the shared numbers |
| SpeciesService.MatchingSumSymmetric | code/src/neat_core/service/species_service.py:27-34 | for lists with distinct numbers the matching sum does not depend on the order of the genomes |
| SpeciesService.GeneDistanceSymmetric | code/src/neat_core/service/species_service.py:11-38 | for lists with distinct numbers a term, including its error, does not depend on the order |
| SpeciesService.GeneticDistanceSymmetric | code/tests/neat_core/service/test_species_service.py:103-112 | the distance between genomes whose lists have distinct numbers is symmetric |
| SpeciesService.CalculateGeneDistance | code/src/neat_core/service/species_service.py:11-38 | the statements of one term compute what the term specifies |
| SpeciesService.SumMatchingDifferences | code/src/neat_core/service/species_service.py:27-34 | the dictionary and the loop compute the matching sum |
| SpeciesService.CalculateGeneticDistanceNodes | code/src/neat_core/service/species_service.py:11-38 | the node term over biases |
| SpeciesService.CalculateGeneticDistanceConnections | code/src/neat_core/service/species_service.py:41-68 | the connection term over weights |
| SpeciesService.CalculateGeneticDistance | code/src/neat_core/service/species_service.py:6-8 | the node term plus the connection term, raising with the node term's error first |
| SpeciesExample.NodeDistanceExample | code/tests/neat_core/service/test_species_service.py:117-121 | the test's node term is (3/6)·2 + 0.325·1 |
| SpeciesExample.ConnectionDistanceExample | code/tests/neat_core/service/test_species_service.py:123-127 | the test's connection term is (3/7)·2 + 1.36·1 |
| SpeciesExample.GeneticDistanceExample | code/tests/neat_core/service/test_species_service.py:103-115 | the test's distance is the sum of the two terms |
| SpeciesExample.ExampleListsDistinct | code/tests/neat_core/service/test_species_service.py:24-58 | the test's four gene lists repeat no number |
| SpeciesExample.GeneticDistanceExampleSymmetric | code/tests/neat_core/service/test_species_service.py:103-112 | swapping the test's genomes gives the same distance |
| GenerationService.InputNodes | code/src/neat_core/service/generation_service.py:128-131 | count INPUT nodes at x-position 0 with bias 0 and the given activation, numbered consecutively |
| GenerationService.OutputNodes | code/src/neat_core/service/generation_service.py:133-135 | count OUTPUT nodes at x-position 1 with bias 0, numbered consecutively |
| GenerationService.FullyConnectedSize | code/src/neat_core/service/generation_service.py:137-145 | the nested loop makes exactly inputs × outputs connections |
| GenerationService.FullyConnectedNumbers | code/src/neat_core/service/generation_service.py:141 | the connections are numbered consecutively in list order |
| GenerationService.FullyConnectedLinks | code/src/neat_core/service/generation_service.py:138-145 | the connection at place i·outputs + j links input i to output j, is enabled and has weight 0 |
| GenerationService.CreateGenomeStructure | code/src/neat_core/service/generation_service.py:115-147 | the nodes are the input nodes then the output nodes, numbered by the node counter; the connections are the fully connected list numbered by the connection counter; the memo lists are unchanged; the seed is unset |
| GenerationService.NumberedNodes | code/src/neat_core/service/generation_service.py:128-135 | one list comprehension takes count consecutive node numbers |
| GenerationService.ConnectAll | code/src/neat_core/service/generation_service.py:137-145 | the nested loop builds the fully connected list and advances the connection counter by inputs × outputs |
| GenerationService.ConnectRow | code/src/neat_core/service/generation_service.py:139-145 | the inner loop links one input to every output |
| GenerationService.StructureNumberedFromZero | code/tests/neat_core/service/test_generation_service.py:65-77 | with a fresh generator the nodes are numbered 0, 1, ... in order, inputs at x 0 and outputs at x 1, and the connections 0, 1, ... |
| GenerationService.RandomizedShape | code/src/neat_core/service/generation_service.py:83-86 | randomizing changes only values: lengths, numbers, types, activations, positions, endpoints and flags stay; INPUT biases stay; other biases and all weights land in their initial ranges |
| GenerationService.RandomizeWeightBias | code/src/neat_core/service/generation_service.py:83-86 | biases are drawn first, then weights, from the same generator |
| GenerationService.PopulationShape | code/src/neat_core/service/generation_service.py:98-107 | every seed is below 2^24, and every genome has the template's topology and numbers, with biases (except INPUT) and weights in their initial ranges |
| GenerationService.BuildGenerationFromGenome | code/src/neat_core/service/generation_service.py:89-112 | population_size seeds are drawn; the result fails exactly when the population is empty; otherwise it is generation 0 with population_size agents, one per fresh genome, and one species without id whose representative is the first genome and whose members are all agents; the template is unchanged |
| GenerationService.CopyPopulation | code/src/neat_core/service/generation_service.py:98-107 | count fresh, pairwise distinct genomes, the j-th randomized from the j-th seed |
| GenerationService.RandomizedGenome | code/src/neat_core/service/generation_service.py:100-106 | draw a seed, deep-copy the template, randomize the copy from a generator with that seed and stamp the seed on it |
| GenerationService.CreateInitialGeneration | code/src/neat_core/service/generation_service.py:16-36 | the fully connected structure numbered by the generator, copied population_size times with seeds from `RandomState(seed)`; fails exactly for an empty population |
| GenerationService.InitialGenerationFromSeed | code/src/neat_core/service/generation_service.py:16-36 | with a fresh generator and a seed, fails exactly for an empty population. Otherwise the population is copied from the structure numbered from 0, with seeds from the seeded stream alone |
| GenerationService.PopulationDeterministic | code/src/neat_core/service/generation_service.py:89-112 | two populations built from the same template and the same draws agree genome by genome in seed, nodes and connections |
| GenerationService.PopulationNumberedFromZero | code/tests/neat_core/service/test_generation_service.py:22-35 | every genome copied from the structure of a fresh generator numbers its nodes and connections 0, 1, ... in order |
| GenerationService.SameSeedSameGeneration | code/tests/neat_core/service/test_generation_service.py:10-35 | two initial generations from fresh generators with the same seed both fail or both succeed. When they succeed, both are generation 0 and agree genome by genome whatever the entropy, and nodes and connections are numbered from 0 |
| GenerationService.RenamingKeys | code/src/neat_core/service/generation_service.py:53-61 | the renaming is defined exactly on the old node numbers |
| GenerationService.RenamingFindsLast | code/src/neat_core/service/generation_service.py:61 | an old number that no later node repeats is renamed to that node's new number |
| GenerationService.RenamingOfDistinct | code/src/neat_core/service/generation_service.py:55-61 | with distinct node numbers node i's old number is renamed to node i's new number |
| GenerationService.RemapMeaning | code/src/neat_core/service/generation_service.py:63-72 | remapping succeeds exactly when every endpoint is renamed; then connection j keeps everything but takes the j-th new number and the renamed endpoints; a failure names the first connection with a missing endpoint |
| GenerationService.RemapFailureSticks | code/src/neat_core/service/generation_service.py:68-69 | once a prefix fails, the whole remapping fails the same way |
| GenerationService.RenumberingKeepsShape | code/src/neat_core/service/generation_service.py:53-76 | with distinct node numbers a connection between old nodes a and b links new nodes a and b: the graph's shape is kept |
| GenerationService.CreateInitialGenerationGenome | code/src/neat_core/service/generation_service.py:39-80 | nodes, then connections, take new numbers from the generator; endpoints are renamed; the population is built from the renumbered copy; a missing endpoint raises after its connection's number was taken |
| GenerationService.RenumberNodes | code/src/neat_core/service/generation_service.py:53-61 | the node loop renumbers consecutively and builds the renaming |
| GenerationService.RemapConnections | code/src/neat_core/service/generation_service.py:63-72 | the connection loop takes a number per connection before looking up its endpoints |
| NeuralNetwork.BasicNeuron.constructor | code/src/neural_network/basic_neural_network.py:13-18 | requires matching lengths of weights and input keys; the value starts at 0 and the input buffer is that many zeros |
| NeuralNetwork.SortConnections | code/src/neural_network/basic_neural_network.py:41-54 | the loop builds the grouping of the connections by output node |
| NeuralNetwork.SortedConnectionKeys | code/src/neural_network/basic_neural_network.py:48-54 | the keys are exactly the output nodes that occur, so an empty list gives an empty dictionary |
| NeuralNetwork.SortedConnectionLists | code/src/neural_network/basic_neural_network.py:49-53 | each list holds the connections into its node in input order, disabled ones included; every connection is under its own output node as often as in the input, and under no other key |
| FitnessEvaluation.GetBestAgent | code/src/utils/fitness_evaluation/fitness_evaluation_utils.py:6-16 | the loop computes the specified best agent |
| FitnessEvaluation.BestIsEarliestMaximum | code/src/utils/fitness_evaluation/fitness_evaluation_utils.py:12-16 | there is no best agent exactly for an empty list; otherwise the best is the agent at some index i with fitness at least every agent's, and every agent before i is strictly less fit |
| FitnessEvaluation.IncreasingFitnessGivesLast | code/src/utils/fitness_evaluation/fitness_evaluation_utils.py:14 | strictly increasing fitness gives the last agent |
| FitnessEvaluation.IndexFitnessExample | code/tests/utils/fitness_evaluation/test_fitness_evaluation_utils.py:24-29 | 150 agents with fitness 0..149 give the last one, with fitness 149 |
| SpeciesReporting.BoundsAreExtremes | code/src/utils/reporter/species_reporter.py:24-27 | the new minimum is the number, or the old minimum if that is smaller, and likewise for the maximum |
| SpeciesReporting.RecordAllKeys | code/src/utils/reporter/species_reporter.py:29-39 | after recording, the ids present are the old ones plus every species' id |
| SpeciesReporting.RecordAllEffect | code/src/utils/reporter/species_reporter.py:29-39 | under each id the generation number is appended once per species with that id, with that species' size; ids not in the generation keep their lists |
| SpeciesReporting.RecordAllBalanced | code/src/utils/reporter/species_reporter.py:29-39 | every id's two lists keep equal lengths |
| SpeciesReporting.SpeciesReporter.constructor | code/src/utils/reporter/species_reporter.py:8-12 | no bounds and an empty dictionary |
| SpeciesReporting.AddGenerationSpeciesReporter | code/src/utils/reporter/species_reporter.py:15-41 | updates both bounds and records every species of the generation; the same reporter is returned |
| SpeciesReporting.RecordAllSnoc | code/src/utils/reporter/species_reporter.py:29 | one more species is recorded after the others |
| SpeciesReporting.ThreeGenerationTrace | code/tests/utils/reporter/test_species_reporter.py:23-66 | three generations give {1: ([3,4,5],[7,3,3]), 2: ([4],[3]), 3: ([4,5],[1,4])} |
| SpeciesReporting.ThreeGenerationBounds | code/tests/utils/reporter/test_species_reporter.py:23-66 | the bounds over generations 3, 4 and 5 are 3 and 5 |
| TimeReporting.TimeReporterEntry.constructor | code/src/utils/reporter/time_reporter.py:10-22 | an entry holds the four given values |
| TimeReporting.EvaluationStart | code/src/utils/reporter/time_reporter.py:41-43 | requires no evaluation start and no pending entry; records the start and keeps the data |
| TimeReporting.EvaluationEnd | code/src/utils/reporter/time_reporter.py:52-57 | requires a start and no pending entry; appends exactly one entry, which becomes pending, leaving earlier entries as they were |
| TimeReporting.ReproductionStart | code/src/utils/reporter/time_reporter.py:65-67 | requires a pending entry and no reproduction start; keeps the data |
| TimeReporting.ComposeStart | code/src/utils/reporter/time_reporter.py:74-76 | requires a pending entry and no compose start; keeps the data |
| TimeReporting.ComposeEnd | code/src/utils/reporter/time_reporter.py:83-85 | requires a compose start and a pending entry; only the pending entry changes |
| TimeReporting.ReproductionEnd | code/src/utils/reporter/time_reporter.py:95-103 | requires a reproduction start and a pending entry; only the pending entry changes, and all temporaries are cleared |
| TimeReporting.GenerationCycle | code/tests/utils/reporter/test_time_reporter.py:68-90 | a full cycle from an idle reporter appends the entry (number, reproduction − compose, compose, evaluation) and returns to idle |
| TimeReporting.GenerationCycleWithoutCompose | code/tests/utils/reporter/test_time_reporter.py:20-35 | without composing, the compose time stays 0 and the reproduction time is the whole reproduction span |
| TimeReporting.TimeReporter.constructor | code/src/utils/reporter/time_reporter.py:27-33 | a fresh reporter with no data, no pending entry and no recorded starts |
| TimeReporting.TimeReporter.OnGenerationEvaluationStart | code/src/utils/reporter/time_reporter.py:35-43 | the object's state moves as `EvaluationStart` says |
| TimeReporting.TimeReporter.OnGenerationEvaluationEnd | code/src/utils/reporter/time_reporter.py:45-57 | one fresh entry is appended and becomes the temporary entry, as `EvaluationEnd` says |
| TimeReporting.TimeReporter.OnReproductionStart | code/src/utils/reporter/time_reporter.py:59-67 | the state moves as `ReproductionStart` says |
| TimeReporting.TimeReporter.OnComposeOffspringsStart | code/src/utils/reporter/time_reporter.py:69-76 | the state moves as `ComposeStart` says |
| TimeReporting.TimeReporter.OnComposeOffspringsEnd | code/src/utils/reporter/time_reporter.py:78-85 | only the temporary entry, which is the last entry of the data, is written; the state moves as `ComposeEnd` says |
| TimeReporting.TimeReporter.OnReproductionEnd | code/src/utils/reporter/time_reporter.py:87-103 | the entry list is the same objects; the state moves as `ReproductionEnd` says, settling the last entry and clearing all temporaries |
| RuntimeMeasurement.StopWatch.constructor | code/src/utils/runtime_measurement.py:6-16 | total 0, no laps; `start=True` starts the watch at once |
| RuntimeMeasurement.StopWatch.Start | code/src/utils/runtime_measurement.py:18-26 | a stopped watch records now; a running one keeps and returns its original start; the total is untouched |
| RuntimeMeasurement.StopWatch.Stop | code/src/utils/runtime_measurement.py:28-36 | a running watch adds now − start to the total and stops; a stopped one is unchanged; the total is returned, and it does not decrease when the clock has not gone back |
| RuntimeMeasurement.LapsNonNegative | code/src/utils/runtime_measurement.py:34 | a total of non-negative laps is non-negative |
| RuntimeMeasurement.RestartAccumulates | code/tests/utils/performance_evaluation/test_stop_watch.py:35-52 | start at t0, stop at t1, start at t2, stop at t3 gives totals t1 − t0, then (t1 − t0) + (t3 − t2) |
| RuntimeMeasurement.RestartKeepsStart | code/src/utils/runtime_measurement.py:23-26 | starting a running watch returns the original start |
| PerformanceComparison.SpeedUpFactor | code/src/utils/performance_evalation/performance_comparison.py:4-11 | defined exactly when the multi-core total is nonzero, and then factor × multi = single |
| PerformanceComparison.SpeedUpAbs | code/src/utils/performance_evalation/performance_comparison.py:14-21 | abs + multi = single, positive exactly when the multi-core run was faster |
| PerformanceComparison.SpeedUpRatio | code/src/utils/performance_evalation/performance_comparison.py:24-32 | defined exactly when both divisors are nonzero, and then ratio × processes × multi = single |
| PerformanceComparison.TwelveOverThree | code/tests/utils/performance_evaluation/test_performance_comparison.py:18-28 | totals 12 and 3 on 8 processes give factor 4, abs 9, ratio 0.5 |
| SpeedUp.SpeedUpFactor | code/src/utils/performance_evalation/performance_comparison2.py:8-15 | defined exactly when multi is nonzero, and then factor × multi = single |
| SpeedUp.SpeedUpAbs | code/src/utils/performance_evalation/performance_comparison2.py:18-25 | abs + multi = single |
| SpeedUp.SpeedUpRatio | code/src/utils/performance_evalation/performance_comparison2.py:28-36 | defined exactly when multi and the process count are nonzero, and then ratio × processes × multi = single |
| SpeedUp.Compare | code/src/utils/performance_evalation/performance_comparison2.py:49-53 | the three figures: defined exactly when both divisors are nonzero; abs + multi = single, factor × multi = single, ratio × processes = factor |
| SpeedUp.PhaseSumsTotal | code/src/utils/performance_evalation/performance_comparison2.py:41-47 | the three per-field sums add up to the sum of each entry's whole time |
| SpeedUp.SpeedUpValuesAll | code/src/utils/performance_evalation/performance_comparison2.py:39-53 | over the sums of each entry's whole time: defined exactly when the multi-core sum and the process count are nonzero; absolute = single − multi, factor × multi = single and ratio × processes = factor |
| SpeedUp.SpeedUpValueReproductionTime | code/src/utils/performance_evalation/performance_comparison2.py:56-66 | the same figures over the sums of reproduction times only |
| SpeedUp.SpeedUpValueComposeOffspring | code/src/utils/performance_evalation/performance_comparison2.py:69-79 | the same figures over the sums of compose times only |
| SpeedUp.SpeedUpValueEvaluationTime | code/src/utils/performance_evalation/performance_comparison2.py:82-92 | the same figures over the sums of evaluation times only |
| SpeedUp.AbsoluteSplitsByPhase | code/src/utils/performance_evalation/performance_comparison2.py:39-92 | the seconds saved overall are the sum of the seconds saved in each phase |
| SpeedUp.OrderIrrelevant | code/src/utils/performance_evalation/performance_comparison2.py:41-47 | the figures do not depend on the order of the entries |
| GenomeVisualization.ColorForNodeType | code/src/utils/visualization/genome_visualization.py:71-81 | every node type gets a `#rrggbb` colour |
| GenomeVisualization.ColorsDistinct | code/src/utils/visualization/genome_visualization.py:76-80 | different node types get different colours |
| GenomeVisualization.SortNodesInLayers | code/src/utils/visualization/genome_visualization.py:83-95 | the loop builds the grouping of the nodes by x-position |
| GenomeVisualization.LayersPartitionNodes | code/src/utils/visualization/genome_visualization.py:89-94 | the keys are exactly the x-positions present; each layer holds its nodes in genome order; every node is in its own layer as often as in the genome, and in no other |
| GenomeVisualization.SampleLayers | code/tests/utils/visualization/test_genome_visualization.py:42-47 | the sample genome falls into three layers: [1, 2, 3], [10, 15] and [4] |
| MpiPrime.IsPrime | code/src/mpi_tutorial/mpi_prime.py:25-38 | the 6k ± 1 test holds exactly for primes |
| MpiPrime.IsPrimeSlow | code/src/mpi_tutorial/mpi_prime.py:41-49 | trial division over [2, n) holds exactly for primes |
| MpiPrime.PrimeFunctionsAgree | code/src/mpi_tutorial/mpi_prime.py:25-49 | the two tests agree on every integer, so either can be the script's prime function |
| MpiPrime.SmallCases | code/src/mpi_tutorial/mpi_prime.py:26-30 | not prime for n ≤ 1; prime for 2, 3 and 5; not for 4 |
| MpiPrime.CountSplit | code/src/mpi_tutorial/mpi_prime.py:54-56 | the counts over adjacent intervals add up |
| MpiPrime.SingleCoreSolution | code/src/mpi_tutorial/mpi_prime.py:52-59 | the count of n in [start, end) that satisfy the function, at most end − start |
| MpiPrimeFast.FoundPrimesLocally | code/src/mpi_tutorial/mpi_prime_fast.py:84-92 | rank r counts the blocks [i, i + STEP) starting at START + r·STEP and advancing by size·STEP while the block start is below END |
| MpiPrimeFast.Gathered | code/src/mpi_tutorial/mpi_prime_fast.py:95 | the gathered list has one count per rank |
| MpiPrimeFast.BlocksCover | code/src/mpi_tutorial/mpi_prime_fast.py:86-89 | the number of blocks is the ceiling of (END − START)/STEP: the last block starts below END and ends at or past it |
| MpiPrimeFast.WindowCounts | code/src/mpi_tutorial/mpi_prime_fast.py:84-92 | size consecutive ranks together check every block from their first start, each once |
| MpiPrimeFast.GatheredSumCountsAllBlocks | code/src/mpi_tutorial/mpi_prime_fast.py:84-99 | the root's sum counts the numbers in [START, START + blocks·STEP) that satisfy the function |
| MpiPrimeFast.CheckedExactlyOnce | code/src/mpi_tutorial/mpi_prime_fast.py:84-99 | a number is checked by exactly one rank when it lies in a block, and by none otherwise |
| MpiPrimeFast.ScriptBlocks | code/src/mpi_tutorial/mpi_prime_fast.py:21-22 | the script's constants give 1818182 blocks |
| MpiPrimeFast.ScriptOverrunHasNoPrime | code/src/mpi_tutorial/mpi_prime_fast.py:87-90 | the numbers 20000000, 20000001 and 20000002, which the last block checks past END, are not prime |
| MpiPrimeFast.ScriptFindsSinglecoreCount | code/src/mpi_tutorial/mpi_prime_fast.py:84-99 | with the script's constants the blocks run to 20000003, yet the gathered sum equals the single-core count over [1, 20000000), for any number of ranks |
| Prime.IsPrime | code/src/mpi_tutorial/prime.py:15-23 | the test as written holds exactly when n > 1 and no d in [2, n // 2) divides n |
| Prime.FourMisclassified | code/src/mpi_tutorial/prime.py:19 | 4 passes the test as written but is not prime |
| Prime.AgreesExceptFour | code/src/mpi_tutorial/prime.py:15-23 | for every n other than 4 the test as written is exactly primality |
| Prime.DivisorAtMostHalf | code/src/mpi_tutorial/prime.py:19 | a proper divisor of n is at most n // 2, so trying divisors up to n // 2 inclusive suffices |
| Prime.IsPrimeCorrected | code/src/mpi_tutorial/prime.py:15-23 | the test with the range extended to n // 2 inclusive holds exactly for primes |

## Left out

- MPI messaging is not modelled: send, recv, bcast and gather, the orchestration in
  `neat_mpi/`, and the script bodies outside the per-rank block loop. What remains
  is the per-rank loop as a function of rank and size, and the gathered sum.
- numpy's generator algorithm is not modelled: a generator is an abstract stream of
  draws. `RandomState(None)`, which draws from the operating system, becomes a
  caller-supplied entropy stream.
- The functions of the clock (`time.time()`) become a `now` parameter of each
  callback.
- Real numbers stand for Python floats: rounding and overflow are not modelled.
  The speed-up results are therefore stated as products (`factor × multi = single`)
  and not as float divisions.
- The mathematical activation functions are not evaluated. A closed set of names
  stands for them, compared by identity as the services do.
- Innovation numbers are integers. The source also accepts strings, and one test
  uses "abc" as a number.
- The genome's id is not modelled. `create_genome_structure` passes `id_=0`, but
  other call sites build genomes without one, and no modelled operation reads it.
- Species, agents and generations keep only the fields the modelled services read.
  Fitness-related species fields are omitted.
- `mpi_prime_fast.is_prime` is the same function, line for line, as
  `mpi_prime.is_prime`, and is modelled once as `MpiPrime.IsPrime`.
- The prime function the scripts pass to `single_core_solution` and to the per-rank
  loop is a parameter of the model. The scripts' timing and logging are not
  modelled.
- `performance_comparison.py` imports `StopWatch` from a module that is not part of
  this model; it is taken to be the `StopWatch` of `runtime_measurement.py`.
- TimeReporting.EvaluationStart, EvaluationEnd, ReproductionStart, ComposeStart,
  ComposeEnd, ReproductionEnd and the `TimeReporter` callbacks: the `assert`s at the
  top of each callback are preconditions. The `AssertionError` a misordered call
  raises is not modelled.
- NeuralNetwork.BasicNeuron.constructor: the length `assert` is a precondition. The
  `AssertionError` for weights and input keys of different lengths is not modelled.
- SpeciesIds.SpeciesIdGenerator.constructor and SpeciesIds.FirstId: every given
  species must carry an id. The `TypeError` that `max(...) + 1` raises when an id
  is `None` is not modelled.
- The empty methods `build`, `reset` and `activate` of `BasicNeuralNetwork`, and the
  drawing code in `genome_visualization.py`, are not modelled.

## Findings

| source | as written | input that shows it | evidently intended | confidence | as-written member | corrected member |
|---|---|---|---|---|---|---|
| code/src/mpi_tutorial/prime.py:19 | `range(2, number // 2)` excludes `number // 2`, so for 4 the loop is empty and 4 is reported prime | 4 | try divisors up to and including `number // 2` (`range(2, number // 2 + 1)`), which is exact primality | high (not executed) | Prime.FourMisclassified | Prime.IsPrimeCorrected |
