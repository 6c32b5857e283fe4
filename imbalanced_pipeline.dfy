/**
 * The imbalanced transformation pipeline: one node per listed `transform_*`
 * function, reading `<name>_data` and writing
 * `<name>_numerical_features_binary_target_imbalanced_data`.
 */
module ImbalancedPipeline {
  import opened Datasets
  import opened Nodes
  import opened TransformPipeline

  /** The functions `create_pipeline` lists, in order. */
  const TransformFuncs: seq<Dataset> := [
    BreastTissue, Cleveland, Dermatology, Ecoli, Eucalyptus, Glass, Haberman,
    Heart, Iris, Led, Libras, Liver, Madelon, NewThyroid1,
    NewThyroid2, PageBlocks13, Pima, Vehicle, Vowel, Wine, Yeast1
  ]

  /** `create_pipeline`: the list comprehension over the listed functions. */
  function CreatePipeline(): (ns: seq<Node>)
    ensures |ns| == |TransformFuncs|
    ensures forall i :: 0 <= i < |TransformFuncs| ==> ns[i] == TransformNode(Imbalanced, TransformFuncs[i])
  {
    TransformNodes(Imbalanced, TransformFuncs)
  }

  /** The list in three blocks of seven, to check its order a block at a time. */
  const FirstBlock: seq<Dataset> := [BreastTissue, Cleveland, Dermatology, Ecoli, Eucalyptus, Glass, Haberman]
  const SecondBlock: seq<Dataset> := [Heart, Iris, Led, Libras, Liver, Madelon, NewThyroid1]
  const ThirdBlock: seq<Dataset> := [NewThyroid2, PageBlocks13, Pima, Vehicle, Vowel, Wine, Yeast1]

  /** The list is the three blocks joined. */
  lemma Blocks()
    ensures TransformFuncs == FirstBlock + SecondBlock + ThirdBlock
  {
  }

  /** Each block is in alphabetical order. */
  lemma BlocksAscending()
    ensures Ascending(FirstBlock) && Ascending(SecondBlock) && Ascending(ThirdBlock)
  {
    AscendingSteps(FirstBlock);
    AscendingSteps(SecondBlock);
    AscendingSteps(ThirdBlock);
  }

  /** The 21 functions are listed in alphabetical order, so no dataset is listed twice. */
  lemma TransformOrder()
    ensures |TransformFuncs| == 21 && Ascending(TransformFuncs)
  {
    Blocks();
    BlocksAscending();
    AscendingJoin(FirstBlock, SecondBlock);
    AscendingJoin(FirstBlock + SecondBlock, ThirdBlock);
  }

  /** One node per listed function, in list order, reading `<name>_data` and writing the imbalanced-table entry. */
  lemma ImbalancedNodes()
    ensures |CreatePipeline()| == 21
    ensures forall i :: 0 <= i < 21 ==>
      var n := CreatePipeline()[i];
      && n.func == TransformImbalanced(TransformFuncs[i])
      && n.inputs == [DataName(TransformFuncs[i]) + "_data"]
      && n.outputs == DataName(TransformFuncs[i]) + "_numerical_features_binary_target_imbalanced_data"
      && n.name == "transform_" + DataName(TransformFuncs[i]) + "_numerical_features_binary_target_imbalanced_data_node"
  {
    TransformOrder();
    assert Suffix(Imbalanced) == "_numerical_features_binary_target_imbalanced_data";
  }

  /** No two nodes write the same entry or have the same name. */
  lemma ImbalancedDistinct(i: nat, j: nat)
    requires i < j < |CreatePipeline()|
    ensures CreatePipeline()[i].outputs != CreatePipeline()[j].outputs
    ensures CreatePipeline()[i].name != CreatePipeline()[j].name
  {
    TransformOrder();
    TransformDistinct(Imbalanced, TransformFuncs, i, j);
  }
}
