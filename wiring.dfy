/**
 * The four pipelines together. Kedro runs a node once the entries it reads
 * exist; here the nodes are listed in the order data flows (downloads,
 * then the two transformations, then processing), and the properties that
 * make that order work are proved: the two transformation pipelines split
 * the downloaded datasets between them, no two nodes write the same entry,
 * and every entry a node reads, other than the parameters, is written by
 * exactly one node listed before it.
 */
module Wiring {
  import opened Datasets
  import opened Text
  import opened Nodes
  import opened Processing
  import DownloadPipeline
  import opened TransformPipeline
  import ImbalancedPipeline
  import BalancedPipeline
  import ProcessingPipeline

  /** Every node of the four pipelines, in the order data flows: 28 + 21 + 7 + 90 of them. */
  function Registry(): (ns: seq<Node>)
    ensures |ns| == 146
  {
    Sizes();
    DownloadPipeline.CreatePipeline() + ImbalancedPipeline.CreatePipeline() +
    BalancedPipeline.CreatePipeline() + ProcessingPipeline.ProcessNodes(ProcessFuncs(FactorMapping))
  }

  /** The registry runs the downloads, then the imbalanced and balanced transformations, then the processing. */
  lemma Stages()
    ensures forall i :: 0 <= i < 28 ==> Registry()[i].func.Download?
    ensures forall i :: 28 <= i < 49 ==> Registry()[i].func.TransformImbalanced?
    ensures forall i :: 49 <= i < 56 ==> Registry()[i].func.TransformBalanced?
    ensures forall i :: 56 <= i < 146 ==> Registry()[i].func.Process?
  {
  }

  /** Where each pipeline's nodes sit in the registry: the downloads first, ... */
  lemma DownloadAt(k: nat)
    requires k < 28
    ensures Registry()[k] == DownloadPipeline.CreatePipeline()[k]
  {
    Sizes();
    Parts(DownloadPipeline.CreatePipeline(), ImbalancedPipeline.CreatePipeline(),
      BalancedPipeline.CreatePipeline(), ProcessingPipeline.ProcessNodes(ProcessFuncs(FactorMapping)), k);
  }

  /** ... then the imbalanced transformations, ... */
  lemma ImbalancedAt(k: nat)
    requires k < 21
    ensures |ImbalancedPipeline.CreatePipeline()| == 21 && Registry()[28 + k] == ImbalancedPipeline.CreatePipeline()[k]
  {
    Sizes();
    Parts(DownloadPipeline.CreatePipeline(), ImbalancedPipeline.CreatePipeline(),
      BalancedPipeline.CreatePipeline(), ProcessingPipeline.ProcessNodes(ProcessFuncs(FactorMapping)), 28 + k);
  }

  /** ... then the balanced transformations, ... */
  lemma BalancedAt(k: nat)
    requires k < 7
    ensures |BalancedPipeline.CreatePipeline()| == 7 && Registry()[49 + k] == BalancedPipeline.CreatePipeline()[k]
  {
    Sizes();
    Parts(DownloadPipeline.CreatePipeline(), ImbalancedPipeline.CreatePipeline(),
      BalancedPipeline.CreatePipeline(), ProcessingPipeline.ProcessNodes(ProcessFuncs(FactorMapping)), 49 + k);
  }

  /** ... and the processing nodes last. */
  lemma ProcessedAt(k: nat)
    requires k < 90
    ensures Registry()[56 + k] == ProcessingPipeline.ProcessNodes(ProcessFuncs(FactorMapping))[k]
  {
    Sizes();
    Parts(DownloadPipeline.CreatePipeline(), ImbalancedPipeline.CreatePipeline(),
      BalancedPipeline.CreatePipeline(), ProcessingPipeline.ProcessNodes(ProcessFuncs(FactorMapping)), 56 + k);
  }

  lemma Sizes()
    ensures |DownloadPipeline.CreatePipeline()| == 28
    ensures |ImbalancedPipeline.CreatePipeline()| == 21
    ensures |BalancedPipeline.CreatePipeline()| == 7
    ensures |ProcessingPipeline.ProcessNodes(ProcessFuncs(FactorMapping))| == 90
  {
    ProcessFuncsCount();
  }

  /** Indexing into four lists joined together. */
  lemma Parts<T>(a: seq<T>, b: seq<T>, c: seq<T>, d: seq<T>, i: nat)
    requires i < |a| + |b| + |c| + |d|
    ensures |a + b + c + d| == |a| + |b| + |c| + |d|
    ensures i < |a| ==> (a + b + c + d)[i] == a[i]
    ensures |a| <= i < |a| + |b| ==> (a + b + c + d)[i] == b[i - |a|]
    ensures |a| + |b| <= i < |a| + |b| + |c| ==> (a + b + c + d)[i] == c[i - |a| - |b|]
    ensures |a| + |b| + |c| <= i ==> (a + b + c + d)[i] == d[i - |a| - |b| - |c|]
  {
  }

  // ---------------------------------------------------------------------
  // The two transformation pipelines split the datasets
  // ---------------------------------------------------------------------

  /** The datasets with two balanced classes. */
  predicate Balanced(d: Dataset) {
    d.Arcene? || d.Audit? || d.BanknoteAuthentication? || d.BreastCancer? ||
    d.Ionosphere? || d.Parkinsons? || d.Spambase?
  }

  /** The balanced pipeline lists exactly the balanced datasets, the imbalanced one exactly the others. */
  lemma Split(d: Dataset)
    ensures d in BalancedPipeline.TransformFuncs <==> Balanced(d)
    ensures d in ImbalancedPipeline.TransformFuncs <==> !Balanced(d)
  {
    ListsSorted();
    Listed(d);
  }

  /**
   * Every dataset is downloaded, and it is transformed by exactly one of the
   * two transformation pipelines.
   */
  lemma Partition(d: Dataset)
    ensures d in DownloadPipeline.DownloadFuncs
    ensures d in BalancedPipeline.TransformFuncs <==> d !in ImbalancedPipeline.TransformFuncs
  {
    Split(d);
    DownloadPipeline.Downloaded(d);
  }

  lemma ListsSorted()
    ensures forall i :: 0 <= i < |BalancedPipeline.TransformFuncs| ==> Balanced(BalancedPipeline.TransformFuncs[i])
    ensures forall i :: 0 <= i < |ImbalancedPipeline.TransformFuncs| ==> !Balanced(ImbalancedPipeline.TransformFuncs[i])
  {
  }

  /** Every dataset is in one of the two lists. */
  lemma Listed(d: Dataset)
    ensures d in BalancedPipeline.TransformFuncs || d in ImbalancedPipeline.TransformFuncs
  {
    if Balanced(d) {
      ListedBalanced(d);
    } else {
      ListedImbalanced(d);
    }
  }

  lemma ListedBalanced(d: Dataset)
    requires Balanced(d)
    ensures d in BalancedPipeline.TransformFuncs
  {
    var b := BalancedPipeline.TransformFuncs;
    match d
    case Arcene => assert b[0] == d;
    case Audit => assert b[1] == d;
    case BanknoteAuthentication => assert b[2] == d;
    case BreastCancer => assert b[3] == d;
    case Ionosphere => assert b[4] == d;
    case Parkinsons => assert b[5] == d;
    case Spambase => assert b[6] == d;
  }

  lemma ListedImbalanced(d: Dataset)
    requires !Balanced(d)
    ensures d in ImbalancedPipeline.TransformFuncs
  {
    var m := ImbalancedPipeline.TransformFuncs;
    match d
    case BreastTissue => assert m[0] == d;
    case Cleveland => assert m[1] == d;
    case Dermatology => assert m[2] == d;
    case Ecoli => assert m[3] == d;
    case Eucalyptus => assert m[4] == d;
    case Glass => assert m[5] == d;
    case Haberman => assert m[6] == d;
    case Heart => assert m[7] == d;
    case Iris => assert m[8] == d;
    case Led => assert m[9] == d;
    case Libras => assert m[10] == d;
    case Liver => assert m[11] == d;
    case Madelon => assert m[12] == d;
    case NewThyroid1 => assert m[13] == d;
    case NewThyroid2 => assert m[14] == d;
    case PageBlocks13 => assert m[15] == d;
    case Pima => assert m[16] == d;
    case Vehicle => assert m[17] == d;
    case Vowel => assert m[18] == d;
    case Wine => assert m[19] == d;
    case Yeast1 => assert m[20] == d;
  }

  // ---------------------------------------------------------------------
  // No two nodes write the same entry
  // ---------------------------------------------------------------------

  /** No two nodes of the registry write the same catalog entry. */
  lemma OutputsDistinct(i: nat, j: nat)
    requires i < j < |Registry()|
    ensures Registry()[i].outputs != Registry()[j].outputs
  {
    if j < 28 {
      DownloadsDistinct(i, j);
    } else if i < 28 {
      DownloadLacksF(i);
      LaterHasF(j);
    } else if j < 49 {
      ImbalancedDistinct(i, j);
    } else if j < 56 && i < 49 {
      ImbalancedEnd(i);
      BalancedEnd(j);
    } else if j < 56 {
      BalancedDistinct(i, j);
    } else if i < 49 {
      ImbalancedEnd(i);
      ProcessedEnd(j);
    } else if i < 56 {
      BalancedEnd(i);
      ProcessedEnd(j);
    } else {
      ProcessedDistinct(i, j);
    }
  }

  lemma DownloadsDistinct(i: nat, j: nat)
    requires i < j < 28
    ensures Registry()[i].outputs != Registry()[j].outputs
  {
    DownloadOutput(i);
    DownloadOutput(j);
    var a, b := DownloadPipeline.DownloadFuncs[i], DownloadPipeline.DownloadFuncs[j];
    DownloadPipeline.DownloadOrder();
    if DataName(a) == DataName(b) {
      NameInjective(a, b);
    }
    AppendDistinct(DataName(a), DataName(b), "_data");
  }

  lemma ImbalancedDistinct(i: nat, j: nat)
    requires 28 <= i < j < 49
    ensures Registry()[i].outputs != Registry()[j].outputs
  {
    var a, b := i - 28, j - 28;
    assert i == 28 + a && j == 28 + b;
    ImbalancedAt(a);
    ImbalancedAt(b);
    ImbalancedPipeline.ImbalancedDistinct(a, b);
  }

  lemma BalancedDistinct(i: nat, j: nat)
    requires 49 <= i < j < 56
    ensures Registry()[i].outputs != Registry()[j].outputs
  {
    var a, b := i - 49, j - 49;
    assert i == 49 + a && j == 49 + b;
    BalancedAt(a);
    BalancedAt(b);
    BalancedPipeline.BalancedDistinct(a, b);
  }

  lemma ProcessedDistinct(i: nat, j: nat)
    requires 56 <= i < j < 146
    ensures Registry()[i].outputs != Registry()[j].outputs
  {
    var a, b := i - 56, j - 56;
    assert i == 56 + a && j == 56 + b;
    var f := ProcessedOutput(a);
    var g := ProcessedOutput(b);
    ProcessingPipeline.EntriesDistinct(a, b);
    if Registry()[i].outputs == Registry()[j].outputs {
      ProcessingPipeline.OutputDetermines(f, g);
    }
  }

  /** The entry a download writes, `<name>_data`, has no 'f'. */
  lemma DownloadLacksF(i: nat)
    requires i < 28
    ensures 'f' !in Registry()[i].outputs
  {
    DownloadOutput(i);
    Letters(DownloadPipeline.DownloadFuncs[i]);
  }

  /** Every later entry holds `_numerical_features_`, and so an 'f'. */
  lemma LaterHasF(i: nat)
    requires 28 <= i < 146
    ensures 'f' in Registry()[i].outputs
  {
    SuffixLetters();
    if i < 49 {
      var k := i - 28;
      assert i == 28 + k;
      ImbalancedOutput(k);
      CharAt(DataName(ImbalancedPipeline.TransformFuncs[k]), Suffix(Imbalanced), "", 11);
    } else if i < 56 {
      var k := i - 49;
      assert i == 49 + k;
      BalancedOutput(k);
      CharAt(DataName(BalancedPipeline.TransformFuncs[k]), Suffix(Collection.Balanced), "", 11);
    } else {
      var k := i - 56;
      assert i == 56 + k;
      var f := ProcessedOutput(k);
      CharAt(DataName(f.dataset), Suffix(Imbalanced), "_" + IntText(f.factor), 11);
    }
  }

  /** An imbalanced table's entry ends in `imbalanced_data`. */
  lemma ImbalancedEnd(i: nat)
    requires 28 <= i < 49
    ensures var o := Registry()[i].outputs; |o| >= 14 && o[|o| - 14] == 'm' && o[|o| - 1] == 'a'
  {
    SuffixLetters();
    var k := i - 28;
    assert i == 28 + k;
    ImbalancedOutput(k);
  }

  /** A balanced table's entry ends in `_balanced_data`: fourteen characters from the end it differs from an imbalanced one. */
  lemma BalancedEnd(i: nat)
    requires 49 <= i < 56
    ensures var o := Registry()[i].outputs; |o| >= 14 && o[|o| - 14] == '_' && o[|o| - 1] == 'a'
  {
    SuffixLetters();
    var k := i - 49;
    assert i == 49 + k;
    BalancedOutput(k);
  }

  /** A processed table's entry ends in a digit of its factor. */
  lemma ProcessedEnd(i: nat)
    requires 56 <= i < 146
    ensures var o := Registry()[i].outputs; |o| >= 1 && '0' <= o[|o| - 1] <= '9'
  {
    var k := i - 56;
    assert i == 56 + k;
    var f := ProcessedOutput(k);
    LastChar(DataName(f.dataset) + Suffix(Imbalanced) + "_", IntText(f.factor));
  }

  /** The letters of the two table suffixes that tell entries apart. */
  lemma SuffixLetters()
    ensures var s := Suffix(Imbalanced);
      |s| >= 14 && s[11] == 'f' && s[|s| - 14] == 'm' && s[|s| - 1] == 'a'
    ensures var s := Suffix(Collection.Balanced);
      |s| >= 14 && s[11] == 'f' && s[|s| - 14] == '_' && s[|s| - 1] == 'a'
  {
  }

  lemma LastChar(x: string, y: string)
    requires |y| >= 1
    ensures (x + y)[|x + y| - 1] == y[|y| - 1]
  {
  }

  lemma CharAt(x: string, s: string, rest: string, k: nat)
    requires k < |s|
    ensures (x + s + rest)[|x| + k] == s[k]
    ensures s[k] in x + s + rest
  {
  }

  /** The entry written by download node i. */
  lemma DownloadOutput(i: nat)
    requires i < 28
    ensures Registry()[i].outputs == DataName(DownloadPipeline.DownloadFuncs[i]) + "_data"
  {
    DownloadAt(i);
  }

  /** The entry written by the k-th imbalanced transformation node. */
  lemma ImbalancedOutput(k: nat)
    requires k < 21
    ensures Registry()[28 + k].outputs == DataName(ImbalancedPipeline.TransformFuncs[k]) + Suffix(Imbalanced)
  {
    ImbalancedAt(k);
  }

  /** The entry written by the k-th balanced transformation node. */
  lemma BalancedOutput(k: nat)
    requires k < 7
    ensures Registry()[49 + k].outputs == DataName(BalancedPipeline.TransformFuncs[k]) + Suffix(Collection.Balanced)
  {
    BalancedAt(k);
  }

  /** The entries of the k-th processing node, and the entry of `generate_process_funcs()` it is for. */
  lemma ProcessedOutput(k: nat) returns (f: ProcessFunc)
    requires k < 90
    ensures |ProcessFuncs(FactorMapping)| == 90
    ensures f == ProcessFuncs(FactorMapping)[k]
    ensures Registry()[56 + k].inputs == [DataName(f.dataset) + Suffix(Imbalanced), Parameters]
    ensures Registry()[56 + k].outputs == DataName(f.dataset) + Suffix(Imbalanced) + "_" + IntText(f.factor)
  {
    ProcessedAt(k);
    Sizes();
    f := ProcessFuncs(FactorMapping)[k];
    assert Registry()[56 + k] == ProcessingPipeline.ProcessNode(f);
  }

  // ---------------------------------------------------------------------
  // Every entry read is written by exactly one earlier node
  // ---------------------------------------------------------------------

  /**
   * Every entry a node reads, other than the parameters, is written by
   * exactly one node of the registry, and that node is listed earlier.
   */
  lemma ProducedOnce(i: nat, x: string)
    requires i < |Registry()| && x in Registry()[i].inputs && x != Parameters
    ensures exists j :: 0 <= j < i && Registry()[j].outputs == x
    ensures forall j, k ::
      (0 <= j < |Registry()| && 0 <= k < |Registry()| && Registry()[j].outputs == x && Registry()[k].outputs == x) ==> j == k
  {
    forall j, k | 0 <= j < |Registry()| && 0 <= k < |Registry()| && Registry()[j].outputs == x && Registry()[k].outputs == x
      ensures j == k
    {
      if j < k {
        OutputsDistinct(j, k);
      } else if k < j {
        OutputsDistinct(k, j);
      }
    }
    if i < 28 {
      DownloadInputs(i);
    } else if i < 49 {
      var j := ImbalancedProducer(i, x);
    } else if i < 56 {
      var j := BalancedProducer(i, x);
    } else {
      var j := ProcessedProducer(i, x);
    }
  }

  /** A download node reads only the parameters. */
  lemma DownloadInputs(i: nat)
    requires i < 28
    ensures Registry()[i].inputs == [Parameters]
  {
    DownloadAt(i);
  }

  /** An imbalanced transformation reads what the download of its dataset writes. */
  lemma ImbalancedProducer(i: nat, x: string) returns (j: nat)
    requires 28 <= i < 49 && x in Registry()[i].inputs
    ensures j < 28 && Registry()[j].outputs == x
  {
    var k := i - 28;
    assert i == 28 + k;
    ImbalancedAt(k);
    var d := ImbalancedPipeline.TransformFuncs[k];
    DownloadPipeline.Downloaded(d);
    j := Ord(d);
    DownloadOutput(j);
  }

  /** A balanced transformation reads what the download of its dataset writes. */
  lemma BalancedProducer(i: nat, x: string) returns (j: nat)
    requires 49 <= i < 56 && x in Registry()[i].inputs
    ensures j < 28 && Registry()[j].outputs == x
  {
    var k := i - 49;
    assert i == 49 + k;
    BalancedAt(k);
    var d := BalancedPipeline.TransformFuncs[k];
    DownloadPipeline.Downloaded(d);
    j := Ord(d);
    DownloadOutput(j);
  }

  /** A processing node reads what the imbalanced transformation of its dataset writes. */
  lemma ProcessedProducer(i: nat, x: string) returns (j: nat)
    requires 56 <= i < 146 && x in Registry()[i].inputs && x != Parameters
    ensures 28 <= j < 49 && Registry()[j].outputs == x
  {
    var m := i - 56;
    assert i == 56 + m;
    var f := ProcessedOutput(m);
    var input := DataName(f.dataset) + Suffix(Imbalanced);
    assert x == input by {
      assert Registry()[i].inputs == [input, Parameters];
    }
    var k := Transformed(m);
    j := 28 + k;
    ImbalancedOutput(k);
  }

  /** The dataset of every entry of `generate_process_funcs()` is listed by the imbalanced transformation pipeline. */
  lemma Transformed(m: nat) returns (k: nat)
    requires m < |ProcessFuncs(FactorMapping)|
    ensures k < 21 && |ImbalancedPipeline.TransformFuncs| == 21
    ensures ImbalancedPipeline.TransformFuncs[k] == ProcessFuncs(FactorMapping)[m].dataset
  {
    ProcessFuncsFrom(FactorMapping, m);
    k :| 0 <= k < |FactorMapping| && ProcessFuncs(FactorMapping)[m].dataset == FactorMapping[k].0 &&
      ProcessFuncs(FactorMapping)[m].factor in FactorMapping[k].1;
    ProcessingPipeline.FactorKeys();
  }
}
