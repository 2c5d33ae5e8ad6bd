/** `basic_neural_network`: the neuron record and the grouping of a genome's
    connections by the node they feed. */
module NeuralNetwork {
  import opened Model
  import opened Collections

  /** A neuron: its current value, the weights of its incoming connections,
      the keys of the nodes those connections come from, and a buffer for
      the incoming values. */
  class BasicNeuron {
    var val: real
    var weights: seq<real>
    var inputKeys: seq<int>
    var inputs: array<real>

    /** The weights and the input keys must pair up; the value starts at 0
        and the input buffer holds one 0 per input key. */
    constructor (weights: seq<real>, inputKeys: seq<int>)
      requires |weights| == |inputKeys|
      ensures val == 0.0 && this.weights == weights && this.inputKeys == inputKeys
      ensures fresh(inputs) && inputs.Length == |inputKeys|
      ensures forall i :: 0 <= i < inputs.Length ==> inputs[i] == 0.0
    {
      val := 0.0;
      this.weights := weights;
      this.inputKeys := inputKeys;
      inputs := new real[|inputKeys|](i => 0.0);
    }
  }

  /** `__sort_connections`: a dictionary from each output node to the
      connections into it, filled by one pass over the list. */
  method SortConnections(connections: seq<Connection>) returns (result: map<int, seq<Connection>>)
    ensures result == GroupBy(connections, ConnectionOutput)
  {
    result := map[];
    for i := 0 to |connections|
      invariant result == GroupBy(connections[..i], ConnectionOutput)
    {
      var connection := connections[i];
      assert DropLast(connections[..i + 1]) == connections[..i] && Last(connections[..i + 1]) == connection;
      assert ConnectionOutput(connection) == connection.outputNode;
      if connection.outputNode !in result {
        assert [] + [connection] == [connection];
        result := result[connection.outputNode := [connection]];
      } else {
        result := result[connection.outputNode := result[connection.outputNode] + [connection]];
      }
    }
    assert connections[..|connections|] == connections;
  }

  /** The keys of the grouping are exactly the output nodes that occur, so
      an empty list gives an empty dictionary. */
  lemma SortedConnectionKeys(connections: seq<Connection>)
    ensures forall k :: k in GroupBy(connections, ConnectionOutput) <==>
      exists i :: 0 <= i < |connections| && connections[i].outputNode == k
  {
    GroupByKeys(connections, ConnectionOutput);
  }

  /** The list under a key holds the connections into that node in their
      original order, disabled ones included, and every connection occurs
      under its own output node as often as in the input and under no
      other key. */
  lemma SortedConnectionLists(connections: seq<Connection>, k: int)
    requires k in GroupBy(connections, ConnectionOutput)
    ensures var group := GroupBy(connections, ConnectionOutput)[k];
      group == Select(connections, ConnectionOutput, k)
      && forall c: Connection :: multiset(group)[c] == if c.outputNode == k then multiset(connections)[c] else 0
  {
    GroupByIsSelect(connections, ConnectionOutput);
    forall c: Connection
      ensures multiset(Select(connections, ConnectionOutput, k))[c]
              == if c.outputNode == k then multiset(connections)[c] else 0
    {
      SelectCount(connections, ConnectionOutput, k, c);
    }
  }
}
