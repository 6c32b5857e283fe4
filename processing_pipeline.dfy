/**
 * The processing pipeline: one node per entry of `generate_process_funcs()`,
 * reading a dataset's imbalanced table and the parameters and writing that
 * table's name followed by `_<factor>`.
 */
module ProcessingPipeline {
  import opened Frame
  import opened Datasets
  import opened Text
  import opened Nodes
  import opened Processing
  import opened TransformPipeline
  import ImbalancedPipeline

  /**
   * The node the loop appends for one entry: it runs the entry's function,
   * reads the table the imbalanced transformation writes for its dataset
   * and the parameters, and writes that name followed by `_<factor>`.
   */
  function ProcessNode(f: ProcessFunc): (n: Node)
    ensures n.func == Process(f)
    ensures n.inputs == [TransformNode(Imbalanced, f.dataset).outputs, Parameters]
    ensures n.outputs == TransformNode(Imbalanced, f.dataset).outputs + "_" + IntText(f.factor)
    ensures n.name == DataName(f.dataset) + "_" + IntText(f.factor) + "_node"
  {
    var input := DataName(f.dataset) + Suffix(Imbalanced);
    Node(Process(f), [input, Parameters], input + "_" + IntText(f.factor),
      DataName(f.dataset) + "_" + IntText(f.factor) + "_node")
  }

  /** The nodes for a list of entries, in the same order. */
  function ProcessNodes(fs: seq<ProcessFunc>): seq<Node> {
    Comprehension(ProcessNode, fs)
  }

  /** `create_pipeline`: one node per entry of `generate_process_funcs()`. */
  method CreatePipeline() returns (nodes: seq<Node>)
    ensures nodes == ProcessNodes(ProcessFuncs(FactorMapping))
  {
    var processFuncs := GenerateProcessFuncs();
    nodes := AppendNodes(processFuncs);
  }

  /** The loop of `create_pipeline`, appending the node for each entry in turn. */
  method AppendNodes(processFuncs: seq<ProcessFunc>) returns (nodes: seq<Node>)
    ensures nodes == ProcessNodes(processFuncs)
  {
    nodes := [];
    for i := 0 to |processFuncs|
      invariant nodes == ProcessNodes(processFuncs[..i])
    {
      var f := processFuncs[i];
      var input := DataName(f.dataset) + Suffix(Imbalanced);
      var output := input + "_" + IntText(f.factor);
      var n := Node(Process(f), [input, Parameters], output, DataName(f.dataset) + "_" + IntText(f.factor) + "_node");
      assert n == ProcessNode(f);
      ComprehensionStep(ProcessNode, processFuncs, i);
      nodes := nodes + [n];
    }
    ComprehensionWhole(ProcessNode, processFuncs);
  }

  /** The datasets of `FACTOR_MAPPING` are those of the imbalanced transformation pipeline, in the same order. */
  lemma FactorKeys()
    ensures |FactorMapping| == |ImbalancedPipeline.TransformFuncs|
    ensures forall k :: 0 <= k < |FactorMapping| ==> FactorMapping[k].0 == ImbalancedPipeline.TransformFuncs[k]
  {
    FactorKeysFrom(0);
    FactorKeysFrom(7);
    FactorKeysFrom(14);
  }

  lemma FactorKeysFrom(a: nat)
    requires a == 0 || a == 7 || a == 14
    ensures |FactorMapping| == |ImbalancedPipeline.TransformFuncs| == 21
    ensures forall k :: a <= k < a + 7 ==> FactorMapping[k].0 == ImbalancedPipeline.TransformFuncs[k]
  {
  }

  /** So no dataset has two factor lists, and no list repeats a factor. */
  lemma MappingDistinct()
    ensures UniqueKeys(FactorMapping)
    ensures forall k :: 0 <= k < |FactorMapping| ==> Distinct(FactorMapping[k].1)
  {
    FactorKeys();
    ImbalancedPipeline.TransformOrder();
    forall a, b | 0 <= a < b < |FactorMapping| ensures FactorMapping[a].0 != FactorMapping[b].0 {
      AscendingDistinct(ImbalancedPipeline.TransformFuncs, a, b);
    }
    FactorMappingShape();
  }

  /** 90 nodes, the i-th built from the i-th entry and reading that dataset's imbalanced table. */
  lemma ProcessingNodes()
    ensures |ProcessNodes(ProcessFuncs(FactorMapping))| == 90
    ensures forall i :: 0 <= i < 90 ==>
      var f := ProcessFuncs(FactorMapping)[i];
      var n := ProcessNodes(ProcessFuncs(FactorMapping))[i];
      && n.func == Process(f) && f.func.factor == f.factor
      && n.inputs == [DataName(f.dataset) + "_numerical_features_binary_target_imbalanced_data", "parameters"]
      && n.outputs == DataName(f.dataset) + "_numerical_features_binary_target_imbalanced_data_" + IntText(f.factor)
      && n.name == DataName(f.dataset) + "_" + IntText(f.factor) + "_node"
  {
    ProcessFuncsCount();
  }

  /** No two entries of `generate_process_funcs()` pair the same dataset with the same factor. */
  lemma EntriesDistinct(i: nat, j: nat)
    requires i < j < |ProcessFuncs(FactorMapping)|
    ensures ProcessFuncs(FactorMapping)[i].dataset != ProcessFuncs(FactorMapping)[j].dataset ||
            ProcessFuncs(FactorMapping)[i].factor != ProcessFuncs(FactorMapping)[j].factor
  {
    MappingDistinct();
    ProcessFuncsDistinct(FactorMapping);
  }

  /** No two nodes write the same entry or have the same name. */
  lemma ProcessingDistinct(i: nat, j: nat)
    requires i < j < |ProcessNodes(ProcessFuncs(FactorMapping))|
    ensures ProcessNodes(ProcessFuncs(FactorMapping))[i].outputs != ProcessNodes(ProcessFuncs(FactorMapping))[j].outputs
    ensures ProcessNodes(ProcessFuncs(FactorMapping))[i].name != ProcessNodes(ProcessFuncs(FactorMapping))[j].name
  {
    var fs := ProcessFuncs(FactorMapping);
    EntriesDistinct(i, j);
    if ProcessNode(fs[i]).outputs == ProcessNode(fs[j]).outputs {
      OutputDetermines(fs[i], fs[j]);
    }
    if ProcessNode(fs[i]).name == ProcessNode(fs[j]).name {
      NameDetermines(fs[i], fs[j]);
    }
  }

  /**
   * An output tells the dataset and the factor apart: the factor is what
   * follows the last '_', since its digits hold no '_'.
   */
  lemma OutputDetermines(f: ProcessFunc, g: ProcessFunc)
    requires DataName(f.dataset) + Suffix(Imbalanced) + "_" + IntText(f.factor) ==
             DataName(g.dataset) + Suffix(Imbalanced) + "_" + IntText(g.factor)
    ensures f.dataset == g.dataset && f.factor == g.factor
  {
    var a, b := DataName(f.dataset) + Suffix(Imbalanced), DataName(g.dataset) + Suffix(Imbalanced);
    assert a + ['_'] + IntText(f.factor) == b + ['_'] + IntText(g.factor);
    SplitAtLast(a, IntText(f.factor), b, IntText(g.factor), '_');
    IntTextInjective(f.factor, g.factor);
    AppendInjective(DataName(f.dataset), DataName(g.dataset), Suffix(Imbalanced));
    NameInjective(f.dataset, g.dataset);
  }

  /** A node name tells the dataset and the factor apart in the same way. */
  lemma NameDetermines(f: ProcessFunc, g: ProcessFunc)
    requires ProcessNode(f).name == ProcessNode(g).name
    ensures f.dataset == g.dataset && f.factor == g.factor
  {
    var x, y := IntText(f.factor), IntText(g.factor);
    AppendInjective(DataName(f.dataset) + "_" + x, DataName(g.dataset) + "_" + y, "_node");
    assert DataName(f.dataset) + ['_'] + x == DataName(g.dataset) + ['_'] + y;
    SplitAtLast(DataName(f.dataset), x, DataName(g.dataset), y, '_');
    IntTextInjective(f.factor, g.factor);
    NameInjective(f.dataset, g.dataset);
  }
}
