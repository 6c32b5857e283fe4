/**
 * The balanced transformation pipeline: one node per listed `transform_*`
 * function, reading `<name>_data` and writing
 * `<name>_numerical_features_binary_target_balanced_data`.
 */
module BalancedPipeline {
  import opened Datasets
  import opened Nodes
  import opened TransformPipeline

  /** The functions `create_pipeline` lists, in order. */
  const TransformFuncs: seq<Dataset> := [
    Arcene, Audit, BanknoteAuthentication, BreastCancer, Ionosphere, Parkinsons, Spambase
  ]

  /** `create_pipeline`: the list comprehension over the listed functions. */
  function CreatePipeline(): (ns: seq<Node>)
    ensures |ns| == |TransformFuncs|
    ensures forall i :: 0 <= i < |TransformFuncs| ==> ns[i] == TransformNode(Balanced, TransformFuncs[i])
  {
    TransformNodes(Balanced, TransformFuncs)
  }

  /** The 7 functions are listed in alphabetical order, so no dataset is listed twice. */
  lemma TransformOrder()
    ensures |TransformFuncs| == 7 && Ascending(TransformFuncs)
  {
    AscendingSteps(TransformFuncs);
  }

  /** One node per listed function, in list order, reading `<name>_data` and writing the balanced-table entry. */
  lemma BalancedNodes()
    ensures |CreatePipeline()| == 7
    ensures forall i :: 0 <= i < 7 ==>
      var n := CreatePipeline()[i];
      && n.func == TransformBalanced(TransformFuncs[i])
      && n.inputs == [DataName(TransformFuncs[i]) + "_data"]
      && n.outputs == DataName(TransformFuncs[i]) + "_numerical_features_binary_target_balanced_data"
      && n.name == "transform_" + DataName(TransformFuncs[i]) + "_numerical_features_binary_target_balanced_data_node"
  {
    TransformOrder();
    assert Suffix(Balanced) == "_numerical_features_binary_target_balanced_data";
  }

  /** No two nodes write the same entry or have the same name. */
  lemma BalancedDistinct(i: nat, j: nat)
    requires i < j < |CreatePipeline()|
    ensures CreatePipeline()[i].outputs != CreatePipeline()[j].outputs
    ensures CreatePipeline()[i].name != CreatePipeline()[j].name
  {
    TransformOrder();
    TransformDistinct(Balanced, TransformFuncs, i, j);
  }
}
