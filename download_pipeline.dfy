/**
 * The download pipeline: one node per listed `download_*` function, reading
 * the parameters and writing `<name>_data`.
 */
module DownloadPipeline {
  import opened Wrappers
  import opened Datasets
  import opened Text
  import opened Nodes

  /** The functions `create_pipeline` lists, in order. */
  const DownloadFuncs: seq<Dataset> := [
    Arcene, Audit, BanknoteAuthentication, BreastCancer, BreastTissue, Cleveland, Dermatology,
    Ecoli, Eucalyptus, Glass, Haberman, Heart, Ionosphere, Iris,
    Led, Libras, Liver, Madelon, NewThyroid1, NewThyroid2, PageBlocks13,
    Parkinsons, Pima, Spambase, Vehicle, Vowel, Wine, Yeast1
  ]

  const Prefix: string := "download_"

  /** `func.__name__` of a download function. */
  function FuncName(d: Dataset): string {
    Prefix + DataName(d)
  }

  /** The node built for one function: `replace('download_', '')` leaves the dataset name. */
  function DownloadNode(d: Dataset): (n: Node)
    ensures n.func == Download(d) && n.inputs == [Parameters]
    ensures n.outputs == DataName(d) + "_data"
    ensures n.name == FuncName(d) + "_data_node"
  {
    var c := PrefixLetter(d);
    StripPrefix(Prefix, DataName(d), c);
    Node(Download(d), [Parameters], ReplaceAll(FuncName(d), Prefix, "") + "_data", FuncName(d) + "_data_node")
  }

  /** A letter of `download_` that the dataset's name lacks, so the prefix occurs only once. */
  function PrefixLetter(d: Dataset): (c: char)
    ensures c in Prefix && c !in DataName(d)
  {
    if d.NewThyroid1? || d.NewThyroid2? then ThyroidLacksA(); 'a'
    else if d.Vowel? || d.Wine? then VowelWineLackD(); 'd'
    else Letters(d); 'w'
  }

  lemma ThyroidLacksA() ensures 'a' !in DataName(NewThyroid1) && 'a' !in DataName(NewThyroid2) {}
  lemma VowelWineLackD() ensures 'd' !in DataName(Vowel) && 'd' !in DataName(Wine) {}

  /** `create_pipeline`: the list comprehension over the listed functions. */
  function CreatePipeline(): (ns: seq<Node>)
    ensures |ns| == |DownloadFuncs|
    ensures forall i :: 0 <= i < |DownloadFuncs| ==> ns[i] == DownloadNode(DownloadFuncs[i])
  {
    Comprehension(DownloadNode, DownloadFuncs)
  }

  /** The list in four blocks of seven, to number it a block at a time. */
  const FirstBlock: seq<Dataset> := [Arcene, Audit, BanknoteAuthentication, BreastCancer, BreastTissue, Cleveland, Dermatology]
  const SecondBlock: seq<Dataset> := [Ecoli, Eucalyptus, Glass, Haberman, Heart, Ionosphere, Iris]
  const ThirdBlock: seq<Dataset> := [Led, Libras, Liver, Madelon, NewThyroid1, NewThyroid2, PageBlocks13]
  const FourthBlock: seq<Dataset> := [Parkinsons, Pima, Spambase, Vehicle, Vowel, Wine, Yeast1]

  /** The list is the four blocks joined. */
  lemma Blocks()
    ensures DownloadFuncs == FirstBlock + SecondBlock + ThirdBlock + FourthBlock
  {
  }

  /** Each block holds the datasets at seven consecutive positions of the alphabet. */
  lemma BlocksNumbered()
    ensures Numbered(FirstBlock, 0) && Numbered(SecondBlock, 7)
    ensures Numbered(ThirdBlock, 14) && Numbered(FourthBlock, 21)
  {
  }

  /** The functions are listed in alphabetical order of their datasets. */
  lemma DownloadOrder()
    ensures |DownloadFuncs| == 28
    ensures forall i :: 0 <= i < |DownloadFuncs| ==> Ord(DownloadFuncs[i]) == i
  {
    Blocks();
    BlocksNumbered();
    NumberedJoin(FirstBlock, SecondBlock, 0);
    NumberedJoin(FirstBlock + SecondBlock, ThirdBlock, 0);
    NumberedJoin(FirstBlock + SecondBlock + ThirdBlock, FourthBlock, 0);
  }

  /** Every dataset is downloaded, by the node at its position in the alphabet. */
  lemma Downloaded(d: Dataset)
    ensures Ord(d) < |DownloadFuncs| && DownloadFuncs[Ord(d)] == d
  {
    DownloadOrder();
    OrdInjective(DownloadFuncs[Ord(d)], d);
  }

  /** One node per listed function, in list order, each reading the parameters and writing `<name>_data`. */
  lemma DownloadNodes()
    ensures |CreatePipeline()| == 28
    ensures forall i :: 0 <= i < 28 ==>
      var n := CreatePipeline()[i];
      && n.func == Download(DownloadFuncs[i])
      && n.inputs == [Parameters]
      && n.outputs == DataName(DownloadFuncs[i]) + "_data"
      && n.name == "download_" + DataName(DownloadFuncs[i]) + "_data_node"
  {
    DownloadOrder();
  }

  /** No two download nodes write the same entry or have the same name. */
  lemma DownloadDistinct(i: nat, j: nat)
    requires i < j < |CreatePipeline()|
    ensures CreatePipeline()[i].outputs != CreatePipeline()[j].outputs
    ensures CreatePipeline()[i].name != CreatePipeline()[j].name
  {
    var a, b := DownloadFuncs[i], DownloadFuncs[j];
    DownloadOrder();
    if DataName(a) + "_data" == DataName(b) + "_data" {
      AppendInjective(DataName(a), DataName(b), "_data");
      NameInjective(a, b);
    }
    if FuncName(a) + "_data_node" == FuncName(b) + "_data_node" {
      AppendInjective(FuncName(a), FuncName(b), "_data_node");
      PrependInjective(Prefix, DataName(a), DataName(b));
      NameInjective(a, b);
    }
  }

  /**
   * The downloaders of the mixed-feature datasets: `nodes.py` defines them,
   * but no dataset of the pipeline bears their names.
   */
  const Unwired: seq<string> := [
    "abalone", "acute", "adult", "annealing", "contraceptive", "credit_approval",
    "echocardiogram", "flags", "heart_disease", "hepatitis", "german_credit", "thyroid"
  ]

  /** No download node runs one of the unwired downloaders. */
  lemma UnwiredAbsent(d: Dataset, u: string)
    requires u in Unwired
    ensures FuncName(d) != Prefix + u
  {
    ParseName(d);
    UnwiredUnparsed(u);
    if FuncName(d) == Prefix + u {
      PrependInjective(Prefix, DataName(d), u);
    }
  }

  lemma UnwiredUnparsed(u: string)
    requires u in Unwired
    ensures Parse(u) == None
  {
    assert Parse("abalone") == None;
    assert Parse("acute") == None;
    assert Parse("adult") == None;
    assert Parse("annealing") == None;
    assert Parse("contraceptive") == None;
    assert Parse("credit_approval") == None;
    assert Parse("echocardiogram") == None;
    assert Parse("flags") == None;
    assert Parse("heart_disease") == None;
    assert Parse("hepatitis") == None;
    assert Parse("german_credit") == None;
    assert Parse("thyroid") == None;
  }
}
