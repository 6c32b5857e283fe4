/**
 * The datasets the pipelines know, and the name each goes by. Every node,
 * dataset and function name in the pipeline definitions is built from one
 * of these names: `download_<name>`, `<name>_data`, `transform_<name>`, and
 * so on.
 */
module Datasets {
  import opened Wrappers

  /** One constructor per dataset, in the alphabetical order of their names. */
  datatype Dataset =
    | Arcene
    | Audit
    | BanknoteAuthentication
    | BreastCancer
    | BreastTissue
    | Cleveland
    | Dermatology
    | Ecoli
    | Eucalyptus
    | Glass
    | Haberman
    | Heart
    | Ionosphere
    | Iris
    | Led
    | Libras
    | Liver
    | Madelon
    | NewThyroid1
    | NewThyroid2
    | PageBlocks13
    | Parkinsons
    | Pima
    | Spambase
    | Vehicle
    | Vowel
    | Wine
    | Yeast1

  /** The name a dataset goes by in function names and catalog entries. */
  function DataName(d: Dataset): string {
    match d
    case Arcene => "arcene"
    case Audit => "audit"
    case BanknoteAuthentication => "banknote_authentication"
    case BreastCancer => "breast_cancer"
    case BreastTissue => "breast_tissue"
    case Cleveland => "cleveland"
    case Dermatology => "dermatology"
    case Ecoli => "ecoli"
    case Eucalyptus => "eucalyptus"
    case Glass => "glass"
    case Haberman => "haberman"
    case Heart => "heart"
    case Ionosphere => "ionosphere"
    case Iris => "iris"
    case Led => "led"
    case Libras => "libras"
    case Liver => "liver"
    case Madelon => "madelon"
    case NewThyroid1 => "new_thyroid_1"
    case NewThyroid2 => "new_thyroid_2"
    case PageBlocks13 => "page_blocks_1_3"
    case Parkinsons => "parkinsons"
    case Pima => "pima"
    case Spambase => "spambase"
    case Vehicle => "vehicle"
    case Vowel => "vowel"
    case Wine => "wine"
    case Yeast1 => "yeast_1"
  }

  /** The dataset's position in the alphabetical order of names. */
  function Ord(d: Dataset): nat {
    match d
    case Arcene => 0
    case Audit => 1
    case BanknoteAuthentication => 2
    case BreastCancer => 3
    case BreastTissue => 4
    case Cleveland => 5
    case Dermatology => 6
    case Ecoli => 7
    case Eucalyptus => 8
    case Glass => 9
    case Haberman => 10
    case Heart => 11
    case Ionosphere => 12
    case Iris => 13
    case Led => 14
    case Libras => 15
    case Liver => 16
    case Madelon => 17
    case NewThyroid1 => 18
    case NewThyroid2 => 19
    case PageBlocks13 => 20
    case Parkinsons => 21
    case Pima => 22
    case Spambase => 23
    case Vehicle => 24
    case Vowel => 25
    case Wine => 26
    case Yeast1 => 27
  }

  /** The dataset a name denotes, if any; looked up by the name's first letter. */
  function Parse(s: string): Option<Dataset> {
    if |s| == 0 then None
    else match s[0]
      case 'a' => if s == "arcene" then Some(Arcene) else if s == "audit" then Some(Audit) else None
      case 'b' => if s == "banknote_authentication" then Some(BanknoteAuthentication) else if s == "breast_cancer" then Some(BreastCancer) else if s == "breast_tissue" then Some(BreastTissue) else None
      case 'c' => if s == "cleveland" then Some(Cleveland) else None
      case 'd' => if s == "dermatology" then Some(Dermatology) else None
      case 'e' => if s == "ecoli" then Some(Ecoli) else if s == "eucalyptus" then Some(Eucalyptus) else None
      case 'g' => if s == "glass" then Some(Glass) else None
      case 'h' => if s == "haberman" then Some(Haberman) else if s == "heart" then Some(Heart) else None
      case 'i' => if s == "ionosphere" then Some(Ionosphere) else if s == "iris" then Some(Iris) else None
      case 'l' => if s == "led" then Some(Led) else if s == "libras" then Some(Libras) else if s == "liver" then Some(Liver) else None
      case 'm' => if s == "madelon" then Some(Madelon) else None
      case 'n' => if s == "new_thyroid_1" then Some(NewThyroid1) else if s == "new_thyroid_2" then Some(NewThyroid2) else None
      case 'p' => if s == "page_blocks_1_3" then Some(PageBlocks13) else if s == "parkinsons" then Some(Parkinsons) else if s == "pima" then Some(Pima) else None
      case 's' => if s == "spambase" then Some(Spambase) else None
      case 'v' => if s == "vehicle" then Some(Vehicle) else if s == "vowel" then Some(Vowel) else None
      case 'w' => if s == "wine" then Some(Wine) else None
      case 'y' => if s == "yeast_1" then Some(Yeast1) else None
      case _ => None
  }

  /** Every dataset is found again from its name. */
  lemma ParseName(d: Dataset)
    ensures Parse(DataName(d)) == Some(d)
  {
    match d
    case Arcene => assert Parse("arcene") == Some(Arcene);
    case Audit => assert Parse("audit") == Some(Audit);
    case BanknoteAuthentication => assert Parse("banknote_authentication") == Some(BanknoteAuthentication);
    case BreastCancer => assert Parse("breast_cancer") == Some(BreastCancer);
    case BreastTissue => assert Parse("breast_tissue") == Some(BreastTissue);
    case Cleveland => assert Parse("cleveland") == Some(Cleveland);
    case Dermatology => assert Parse("dermatology") == Some(Dermatology);
    case Ecoli => assert Parse("ecoli") == Some(Ecoli);
    case Eucalyptus => assert Parse("eucalyptus") == Some(Eucalyptus);
    case Glass => assert Parse("glass") == Some(Glass);
    case Haberman => assert Parse("haberman") == Some(Haberman);
    case Heart => assert Parse("heart") == Some(Heart);
    case Ionosphere => assert Parse("ionosphere") == Some(Ionosphere);
    case Iris => assert Parse("iris") == Some(Iris);
    case Led => assert Parse("led") == Some(Led);
    case Libras => assert Parse("libras") == Some(Libras);
    case Liver => assert Parse("liver") == Some(Liver);
    case Madelon => assert Parse("madelon") == Some(Madelon);
    case NewThyroid1 => assert Parse("new_thyroid_1") == Some(NewThyroid1);
    case NewThyroid2 => assert Parse("new_thyroid_2") == Some(NewThyroid2);
    case PageBlocks13 => assert Parse("page_blocks_1_3") == Some(PageBlocks13);
    case Parkinsons => assert Parse("parkinsons") == Some(Parkinsons);
    case Pima => assert Parse("pima") == Some(Pima);
    case Spambase => assert Parse("spambase") == Some(Spambase);
    case Vehicle => assert Parse("vehicle") == Some(Vehicle);
    case Vowel => assert Parse("vowel") == Some(Vowel);
    case Wine => assert Parse("wine") == Some(Wine);
    case Yeast1 => assert Parse("yeast_1") == Some(Yeast1);
  }

  /** No two datasets share a name. */
  lemma NameInjective(a: Dataset, b: Dataset)
    requires DataName(a) == DataName(b)
    ensures a == b
  {
    ParseName(a);
    ParseName(b);
  }

  /** Datasets listed in strictly increasing alphabetical order. */
  predicate Ascending(ds: seq<Dataset>) {
    forall i, j :: 0 <= i < j < |ds| ==> Ord(ds[i]) < Ord(ds[j])
  }

  /** A list whose neighbours are in order is in order. */
  lemma {:induction false} AscendingSteps(ds: seq<Dataset>)
    requires forall i :: 0 <= i < |ds| - 1 ==> Ord(ds[i]) < Ord(ds[i + 1])
    ensures Ascending(ds)
    decreases |ds|
  {
    if |ds| > 1 {
      var n := |ds|;
      AscendingSteps(ds[..n - 1]);
      forall i | 0 <= i < n - 1 ensures Ord(ds[i]) < Ord(ds[n - 1]) {
        assert ds[..n - 1][i] == ds[i];
        assert ds[..n - 1][n - 2] == ds[n - 2];
      }
    }
  }

  /** Two lists in order, the first ending before the second starts, joined are in order. */
  lemma AscendingJoin(a: seq<Dataset>, b: seq<Dataset>)
    requires Ascending(a) && Ascending(b)
    requires |a| > 0 && |b| > 0 && Ord(a[|a| - 1]) < Ord(b[0])
    ensures Ascending(a + b)
  {
    forall i, j | 0 <= i < j < |a + b| ensures Ord((a + b)[i]) < Ord((a + b)[j]) {
      if j < |a| {
        assert (a + b)[i] == a[i] && (a + b)[j] == a[j];
      } else if i >= |a| {
        assert (a + b)[i] == b[i - |a|] && (a + b)[j] == b[j - |a|];
      } else {
        assert i == |a| - 1 || Ord(a[i]) < Ord(a[|a| - 1]);
        assert j == |a| || Ord(b[0]) < Ord(b[j - |a|]);
      }
    }
  }

  /** The list holds the datasets whose positions in the alphabet run up from `base`. */
  predicate Numbered(ds: seq<Dataset>, base: int) {
    forall i :: 0 <= i < |ds| ==> Ord(ds[i]) == base + i
  }

  /** Two numbered lists, the second carrying on where the first stops, joined are numbered. */
  lemma NumberedJoin(a: seq<Dataset>, b: seq<Dataset>, base: int)
    requires Numbered(a, base) && Numbered(b, base + |a|)
    ensures Numbered(a + b, base)
  {
    forall i | 0 <= i < |a + b| ensures Ord((a + b)[i]) == base + i {
      if i < |a| {
        assert (a + b)[i] == a[i];
      } else {
        assert (a + b)[i] == b[i - |a|];
      }
    }
  }

  /** Datasets at the same position in the alphabet are the same. */
  lemma OrdInjective(a: Dataset, b: Dataset)
    requires Ord(a) == Ord(b)
    ensures a == b
  {
  }

  /** A list in alphabetical order names every dataset at most once. */
  lemma AscendingDistinct(ds: seq<Dataset>, i: nat, j: nat)
    requires Ascending(ds) && i < j < |ds|
    ensures ds[i] != ds[j] && DataName(ds[i]) != DataName(ds[j])
  {
    if DataName(ds[i]) == DataName(ds[j]) {
      NameInjective(ds[i], ds[j]);
    }
  }

  /** The datasets with a 'w' in their name. */
  predicate HasW(d: Dataset) {
    d.NewThyroid1? || d.NewThyroid2? || d.Vowel? || d.Wine?
  }

  /**
   * No name has an 'f', and only four have a 'w'. These letters tell the
   * names apart from the `transform_` and `download_` prefixes and from the
   * `_numerical_features_...` suffixes.
   */
  lemma Letters(d: Dataset)
    ensures 'f' !in DataName(d)
    ensures !HasW(d) ==> 'w' !in DataName(d)
  {
    match d
    case Arcene => LettersArcene();
    case Audit => LettersAudit();
    case BanknoteAuthentication => LettersBanknoteAuthentication();
    case BreastCancer => LettersBreastCancer();
    case BreastTissue => LettersBreastTissue();
    case Cleveland => LettersCleveland();
    case Dermatology => LettersDermatology();
    case Ecoli => LettersEcoli();
    case Eucalyptus => LettersEucalyptus();
    case Glass => LettersGlass();
    case Haberman => LettersHaberman();
    case Heart => LettersHeart();
    case Ionosphere => LettersIonosphere();
    case Iris => LettersIris();
    case Led => LettersLed();
    case Libras => LettersLibras();
    case Liver => LettersLiver();
    case Madelon => LettersMadelon();
    case NewThyroid1 => LettersNewThyroid1();
    case NewThyroid2 => LettersNewThyroid2();
    case PageBlocks13 => LettersPageBlocks13();
    case Parkinsons => LettersParkinsons();
    case Pima => LettersPima();
    case Spambase => LettersSpambase();
    case Vehicle => LettersVehicle();
    case Vowel => LettersVowel();
    case Wine => LettersWine();
    case Yeast1 => LettersYeast1();
  }

  // One lemma per name, so that each sees a single string.

  lemma LettersArcene() ensures 'f' !in DataName(Arcene) && 'w' !in DataName(Arcene) {}
  lemma LettersAudit() ensures 'f' !in DataName(Audit) && 'w' !in DataName(Audit) {}
  lemma LettersBanknoteAuthentication() ensures 'f' !in DataName(BanknoteAuthentication) && 'w' !in DataName(BanknoteAuthentication) {}
  lemma LettersBreastCancer() ensures 'f' !in DataName(BreastCancer) && 'w' !in DataName(BreastCancer) {}
  lemma LettersBreastTissue() ensures 'f' !in DataName(BreastTissue) && 'w' !in DataName(BreastTissue) {}
  lemma LettersCleveland() ensures 'f' !in DataName(Cleveland) && 'w' !in DataName(Cleveland) {}
  lemma LettersDermatology() ensures 'f' !in DataName(Dermatology) && 'w' !in DataName(Dermatology) {}
  lemma LettersEcoli() ensures 'f' !in DataName(Ecoli) && 'w' !in DataName(Ecoli) {}
  lemma LettersEucalyptus() ensures 'f' !in DataName(Eucalyptus) && 'w' !in DataName(Eucalyptus) {}
  lemma LettersGlass() ensures 'f' !in DataName(Glass) && 'w' !in DataName(Glass) {}
  lemma LettersHaberman() ensures 'f' !in DataName(Haberman) && 'w' !in DataName(Haberman) {}
  lemma LettersHeart() ensures 'f' !in DataName(Heart) && 'w' !in DataName(Heart) {}
  lemma LettersIonosphere() ensures 'f' !in DataName(Ionosphere) && 'w' !in DataName(Ionosphere) {}
  lemma LettersIris() ensures 'f' !in DataName(Iris) && 'w' !in DataName(Iris) {}
  lemma LettersLed() ensures 'f' !in DataName(Led) && 'w' !in DataName(Led) {}
  lemma LettersLibras() ensures 'f' !in DataName(Libras) && 'w' !in DataName(Libras) {}
  lemma LettersLiver() ensures 'f' !in DataName(Liver) && 'w' !in DataName(Liver) {}
  lemma LettersMadelon() ensures 'f' !in DataName(Madelon) && 'w' !in DataName(Madelon) {}
  lemma LettersNewThyroid1() ensures 'f' !in DataName(NewThyroid1) {}
  lemma LettersNewThyroid2() ensures 'f' !in DataName(NewThyroid2) {}
  lemma LettersPageBlocks13() ensures 'f' !in DataName(PageBlocks13) && 'w' !in DataName(PageBlocks13) {}
  lemma LettersParkinsons() ensures 'f' !in DataName(Parkinsons) && 'w' !in DataName(Parkinsons) {}
  lemma LettersPima() ensures 'f' !in DataName(Pima) && 'w' !in DataName(Pima) {}
  lemma LettersSpambase() ensures 'f' !in DataName(Spambase) && 'w' !in DataName(Spambase) {}
  lemma LettersVehicle() ensures 'f' !in DataName(Vehicle) && 'w' !in DataName(Vehicle) {}
  lemma LettersVowel() ensures 'f' !in DataName(Vowel) {}
  lemma LettersWine() ensures 'f' !in DataName(Wine) {}
  lemma LettersYeast1() ensures 'f' !in DataName(Yeast1) && 'w' !in DataName(Yeast1) {}
}
