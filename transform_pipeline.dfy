/**
 * What the two transformation pipelines share: one node per listed
 * `transform_*` function, reading `<name>_data` and writing
 * `<name>_numerical_features_binary_target_<collection>_data`, where the
 * collection is `imbalanced` or `balanced`.
 */
module TransformPipeline {
  import opened Datasets
  import opened Text
  import opened Nodes

  /** The two collections of normalised tables. */
  datatype Collection = Imbalanced | Balanced

  const Prefix: string := "transform_"

  /** The end of every entry a pipeline writes. */
  function Suffix(c: Collection): string {
    match c
    case Imbalanced => "_numerical_features_binary_target_imbalanced_data"
    case Balanced => "_numerical_features_binary_target_balanced_data"
  }

  /** The function a node of the collection runs for a dataset. */
  function Tag(c: Collection, d: Dataset): Step {
    match c
    case Imbalanced => TransformImbalanced(d)
    case Balanced => TransformBalanced(d)
  }

  /** `func.__name__` of a transformation function. */
  function FuncName(d: Dataset): string {
    Prefix + DataName(d)
  }

  /** The node built for one function: `replace('transform_', '')` leaves the dataset name. */
  function TransformNode(c: Collection, d: Dataset): (n: Node)
    ensures n.func == Tag(c, d)
    ensures n.inputs == [DataName(d) + "_data"]
    ensures n.outputs == DataName(d) + Suffix(c)
    ensures n.name == FuncName(d) + Suffix(c) + "_node"
  {
    Letters(d);
    StripPrefix(Prefix, DataName(d), 'f');
    var stem := ReplaceAll(FuncName(d), Prefix, "");
    Node(Tag(c, d), [stem + "_data"], stem + Suffix(c), FuncName(d) + Suffix(c) + "_node")
  }

  /** `[node(func=f, ...) for f in funcs]` for one collection. */
  function TransformNodes(c: Collection, funcs: seq<Dataset>): (ns: seq<Node>)
    ensures |ns| == |funcs| && forall i :: 0 <= i < |funcs| ==> ns[i] == TransformNode(c, funcs[i])
  {
    seq(|funcs|, i requires 0 <= i < |funcs| => TransformNode(c, funcs[i]))
  }

  /** Functions listed in alphabetical order are for different datasets, so they write different entries. */
  lemma NamesDistinct(c: Collection, funcs: seq<Dataset>, i: nat, j: nat)
    requires Ascending(funcs) && i < j < |funcs|
    ensures DataName(funcs[i]) != DataName(funcs[j])
    ensures DataName(funcs[i]) + Suffix(c) != DataName(funcs[j]) + Suffix(c)
  {
    AscendingDistinct(funcs, i, j);
    AppendDistinct(DataName(funcs[i]), DataName(funcs[j]), Suffix(c));
  }

  /** No two nodes of an alphabetical list write the same entry or have the same name. */
  lemma TransformDistinct(c: Collection, funcs: seq<Dataset>, i: nat, j: nat)
    requires Ascending(funcs) && i < j < |funcs|
    ensures TransformNodes(c, funcs)[i].outputs != TransformNodes(c, funcs)[j].outputs
    ensures TransformNodes(c, funcs)[i].name != TransformNodes(c, funcs)[j].name
  {
    AscendingDistinct(funcs, i, j);
    if TransformNode(c, funcs[i]).outputs == TransformNode(c, funcs[j]).outputs {
      OutputDetermines(c, funcs[i], funcs[j]);
    }
    if TransformNode(c, funcs[i]).name == TransformNode(c, funcs[j]).name {
      NameDetermines(c, funcs[i], funcs[j]);
    }
  }

  /** A node's output tells which dataset it is for. */
  lemma OutputDetermines(c: Collection, a: Dataset, b: Dataset)
    requires TransformNode(c, a).outputs == TransformNode(c, b).outputs
    ensures a == b
  {
    AppendInjective(DataName(a), DataName(b), Suffix(c));
    NameInjective(a, b);
  }

  /** A node's name tells which dataset it is for. */
  lemma NameDetermines(c: Collection, a: Dataset, b: Dataset)
    requires TransformNode(c, a).name == TransformNode(c, b).name
    ensures a == b
  {
    AppendInjective(FuncName(a) + Suffix(c), FuncName(b) + Suffix(c), "_node");
    AppendInjective(FuncName(a), FuncName(b), Suffix(c));
    PrependInjective(Prefix, DataName(a), DataName(b));
    NameInjective(a, b);
  }
}
