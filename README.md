# ial-datasets core, modelled in Dafny

The ial-datasets project is a set of kedro pipelines. They download tabular datasets, normalise each one into numeric features plus a 0/1 `target` column, and derive class-imbalanced variants. This project models the part of it that has logic of its own:

- **Normalisation** (`normalise.dfy`, module `Normalise`). `transform_numeric_features_binary_target` is a chain of pure steps over a row-wise table, with one error per exception pandas raises. Each step (label, drop, cast to float, renumber, concatenate, `dropna`) is a function. `Normalize` chains them in the source's order.
- **Per-dataset transforms** (`imbalanced_transforms.dfy`, `balanced_transforms.dfy`). Each `transform_*` function is a fixed argument record passed to `Normalize`. Each function's contract states what its record means:
  - which columns must exist;
  - how wide the result is;
  - which cells of which column are labelled positive.
  
  `transform_banknote_authentication` and `transform_spambase` use every default, like `transform_pima` and `transform_vehicle`, so all four are `ImbalancedTransforms.TransformDefaults`.
- **Dataset to transform** (`transforms.dfy`, module `Transforms`). `Record` gives each dataset's argument record. `Transform` is `Normalize` of the dataset's input (with '?' made missing for eucalyptus) under that record. One lemma per `transform_*` function proves the function equal to `Transform` for each dataset whose node runs it, which ties the function a transformation node runs to what it computes.
- **Imbalance step** (`processing.dfy`, module `Processing`):
  - `make_data_imbalanced` computes the class counts (`Counter`) and divides the positive count by the factor, truncating as `int(x / y)` does. It passes that request to imblearn's `make_imbalance`, then reassembles the table with a fresh index.
  - `make_imbalance` is a method. Its contract is the part the pipeline relies on: it checks the request, keeps a sub-multiset of the rows, and meets the requested count of each class.
  - `FACTOR_MAPPING` is a constant.
  - `generate_process_funcs` is the nested loop it is in the source, proved equal to a flattening function.
- **Pipeline wiring** (`download_pipeline.dfy`, `transform_pipeline.dfy`, `imbalanced_pipeline.dfy`, `balanced_pipeline.dfy`, `processing_pipeline.dfy`, `wiring.dfy`):
  - A kedro node is a record: the function it runs, its input entries, its output entry and its name.
  - Names are built as the source builds them: `str.replace` of the `download_`/`transform_` prefix, suffixes, and the decimal text of the factor.
  - The three list comprehensions are functions. The two transformation pipelines differ only in their function list and the `imbalanced`/`balanced` word in their entry names, so `TransformPipeline` builds both.
  - The processing pipeline's `for` loop is a method.
  - `Wiring.Registry` lists the nodes of all four pipelines in data-flow order. Over it, the model proves two things: no two nodes write the same entry, and every entry a node reads (other than `parameters`) is written by exactly one node listed before it.

Dataset names are the constructors of one enumeration (`Datasets.Dataset`). `Datasets.DataName` maps each constructor to the name used in function and entry names. Tables are values, so no operation can modify its input table.

Support modules:
- `frame.dfy`: tables, column keys, cells, filtering and selection by position.
- `text.dfy`: `str.replace`, decimal rendering, string injectivity lemmas.
- `nodes.dfy`: the node record and list comprehensions.
- `datasets.dfy`: the dataset enumeration and its names.
- `wrappers.dfy`: `Option` and `Result`.

### Behaviour worth noting

- **Row order.** Normalisation keeps the input rows in their order, with their index labels; the index is not reset.
- **Feature count.** The number of features is the input column count minus one, minus the distinct dropped columns *other than the target*. `transform_arcene` drops its own target column as well, and that column is counted once.
- **NaN text.** `astype(float)` turns text such as 'nan' into NaN, so `dropna` removes that row like a row with a missing cell.
- **Negative factor.** A negative factor is not always rejected. `int(count / factor)` truncates toward zero, so when |factor| exceeds the positive count, the request is 0 and it passes. See `Processing.RequestAccepted`.
- **Zero request.** A request of 0 positive rows is accepted (see Left out).
- **Single class.** `make_imbalance` refuses a table whose target holds one class only, before it looks at the request.
- **Idempotence.** Re-normalising an output with the defaults returns exactly the same table: the same rows, in the same order, with the same index labels.

## Model

| member | source | states |
|---|---|---|
| Normalise.Label | src/ial_datasets/utils.py:15 | a cell is labelled 1 exactly when it is one of the positive values, 0 exactly when it is not |
| Normalise.TargetLabels | src/ial_datasets/utils.py:15 | fails with KeyError naming the target exactly when the target column is absent; otherwise one label per row, 1 iff the row's target cell is a positive value, else 0 |
| Normalise.Absent | src/ial_datasets/utils.py:16 | the keys reported missing by `drop` are exactly the listed keys that are not columns |
| Normalise.Drop | src/ial_datasets/utils.py:16 | fails with KeyError naming the absent keys exactly when a listed key is not a column; otherwise keeps the unlisted columns in input order, and every row keeps its index and exactly those cells |
| Normalise.DropKeeps | src/ial_datasets/utils.py:16 | after `drop`, a key is a column exactly when it was a column and was not listed |
| Normalise.CastValue | src/ial_datasets/utils.py:16 | `astype(float)` on a cell: it is missing afterwards exactly when it was missing or text read as NaN; a number is unchanged; other text becomes the number it reads as; no text remains |
| Normalise.AsFloat | src/ial_datasets/utils.py:16 | fails with ValueError exactly when some cell is text that is not a number; otherwise the same columns and rows, each cell cast |
| Normalise.Renumber | src/ial_datasets/utils.py:17-18 | the columns become 0..k-1 in order and the rows are unchanged |
| Normalise.Header | src/ial_datasets/utils.py:17-19 | the output header is 0..k-1 followed by `target`, with no repeats |
| Normalise.AppendColumn | src/ial_datasets/utils.py:19 | `concat` puts the labels in a last column, row by row, keeping each row's index and cells |
| Normalise.DropNa | src/ial_datasets/utils.py:20 | keeps, in order, exactly the rows without a missing cell |
| Normalise.NormalizeDefaults | src/ial_datasets/utils.py:9-14 | with no arguments the call is the call with no dropped columns, the last column as target and `[1]` as positive values; a table with no columns fails (IndexError) |
| Normalise.CastableAfterDrop | src/ial_datasets/utils.py:16 | the cast after `drop` fails exactly when a kept cell of the input is text that is not a number |
| Normalise.NormalizeFails | src/ial_datasets/utils.py:11-16 | the call fails exactly when the input is not accepted (no column to default to, target absent, a dropped column absent, a kept cell not castable), and the error is the one raised first |
| Normalise.KeptWidth | src/ial_datasets/utils.py:16 | the kept feature count is the column count minus one minus the distinct dropped columns other than the target |
| Normalise.NormalizeColumns | src/ial_datasets/utils.py:16-19 | on success the columns are 0..k-1 then `target`, with k the kept column count as above |
| Normalise.StagedRows | src/ial_datasets/utils.py:15-19 | before `dropna`, row i is input row i's kept features cast to float, then its label |
| Normalise.SurvivingRows | src/ial_datasets/utils.py:20 | `dropna` keeps exactly the rows none of whose kept features is missing or NaN once cast, each in normalised form |
| Normalise.NormalizeRows | src/ial_datasets/utils.py:15-20 | on success the rows are the input rows with no kept feature missing or NaN once cast, in input order with their index labels, each normalised; there are no more rows than in the input |
| Normalise.NormalizeTarget | src/ial_datasets/utils.py:15-19 | each output row's last cell is 1 iff its input row's target cell is a positive value, else 0 |
| Normalise.NormalizeLabelled | src/ial_datasets/utils.py:15-20 | a success implies the input was accepted and the output is the surviving rows labelled by the target column |
| Normalise.NormalizeShape | src/ial_datasets/utils.py:16-20 | on success the output has one column per input column, less the distinct dropped columns other than the target |
| Normalise.NamedTarget | src/ial_datasets/utils.py:11-16 | for a named target and distinct other drops, success means both were present and the output is narrower by the drop count |
| Normalise.LastTarget | src/ial_datasets/utils.py:11-16 | with the default target, success means the input had columns and the output is labelled by its last column |
| Normalise.NormalizeCanonical | src/ial_datasets/utils.py:15-20 | every successful output is canonical: numeric features 0..k-1, then `target` holding 0 or 1 |
| Normalise.CanonicalFixed | src/ial_datasets/utils.py:9-21 | the default call returns a canonical table unchanged |
| Normalise.Normalize | src/ial_datasets/utils.py:6-21 | fails with IndexError exactly when no target is named and the table has no columns; a result is a well-formed table whose last column is `target` and which has no more rows than the input |
| Normalise.NormalizeIdempotent | src/ial_datasets/utils.py:9-21 | re-applying the default call to a successful output returns the same output |
| ImbalancedTransforms.TransformBreastTissue | src/ial_datasets/pipelines/data_transformation_numerical_features_binary_target_imbalanced/nodes.py:6-10 | success needs 'Class' and 'Case #'; the output is one column narrower; 'car' and 'fad' in 'Class' are positive |
| ImbalancedTransforms.TransformEcoli | src/ial_datasets/pipelines/data_transformation_numerical_features_binary_target_imbalanced/nodes.py:13-17 | success needs '8' and '0'; one column narrower; 'pp' in '8' is positive |
| ImbalancedTransforms.ReplaceWithMissing | src/ial_datasets/pipelines/data_transformation_numerical_features_binary_target_imbalanced/nodes.py:34 | `replace('?', nan)`: a cell becomes missing exactly when it was missing or '?', and other cells are unchanged |
| ImbalancedTransforms.EucalyptusRecord | src/ial_datasets/pipelines/data_transformation_numerical_features_binary_target_imbalanced/nodes.py:22-32 | the nine dropped columns are distinct and do not include the target |
| ImbalancedTransforms.TransformEucalyptus | src/ial_datasets/pipelines/data_transformation_numerical_features_binary_target_imbalanced/nodes.py:20-38 | success needs 'Utility' and the nine dropped columns; nine columns narrower; 'best' in 'Utility' is positive |
| ImbalancedTransforms.EucalyptusQuestionMarks | src/ial_datasets/pipelines/data_transformation_numerical_features_binary_target_imbalanced/nodes.py:33-38 | a row is kept exactly when none of its kept feature cells is missing, '?', or text read as NaN |
| ImbalancedTransforms.EucalyptusLabels | src/ial_datasets/pipelines/data_transformation_numerical_features_binary_target_imbalanced/nodes.py:33-38 | the labels can be read from the original 'Utility' cells ('?' gives 0) |
| ImbalancedTransforms.TransformGlass | src/ial_datasets/pipelines/data_transformation_numerical_features_binary_target_imbalanced/nodes.py:41-45 | success needs '10' and '0'; one column narrower; 1 in '10' is positive |
| ImbalancedTransforms.TransformHaberman | src/ial_datasets/pipelines/data_transformation_numerical_features_binary_target_imbalanced/nodes.py:48-52 | success needs '3'; same width; 2 in '3' is positive |
| ImbalancedTransforms.TransformHeart | src/ial_datasets/pipelines/data_transformation_numerical_features_binary_target_imbalanced/nodes.py:55-57 | 2 in the last column is positive; same width |
| ImbalancedTransforms.TransformIris | src/ial_datasets/pipelines/data_transformation_numerical_features_binary_target_imbalanced/nodes.py:60-62 | 'Iris-setosa' in the last column is positive; same width |
| ImbalancedTransforms.TransformMadelon | src/ial_datasets/pipelines/data_transformation_numerical_features_binary_target_imbalanced/nodes.py:65-69 | success needs '500'; one column narrower when '500' is not the last column; -1 in the last column is positive |
| ImbalancedTransforms.OneIsDefault | src/ial_datasets/pipelines/data_transformation_numerical_features_binary_target_imbalanced/nodes.py:72-79 | libras and liver pass `[1]` explicitly, so each is exactly the all-defaults transform |
| ImbalancedTransforms.TransformDefaults | src/ial_datasets/pipelines/data_transformation_numerical_features_binary_target_imbalanced/nodes.py:82-89 | pima and vehicle (and banknote_authentication, spambase): 1 in the last column is positive; same width |
| ImbalancedTransforms.TransformWine | src/ial_datasets/pipelines/data_transformation_numerical_features_binary_target_imbalanced/nodes.py:92-96 | success needs '0'; same width; 2 in '0' is positive |
| ImbalancedTransforms.WineFeatures | src/ial_datasets/pipelines/data_transformation_numerical_features_binary_target_imbalanced/nodes.py:92-96 | with '0' as the first column, feature i is input column i + 1 |
| ImbalancedTransforms.TransformKeel | src/ial_datasets/pipelines/data_transformation_numerical_features_binary_target_imbalanced/nodes.py:99-126 | the six KEEL transforms: 'positive' in the last column is positive; same width |
| ImbalancedTransforms.TransformKeelPadded | src/ial_datasets/pipelines/data_transformation_numerical_features_binary_target_imbalanced/nodes.py:129-136 | vowel and yeast_1: ' positive' (with the space) in the last column is positive; same width |
| ImbalancedTransforms.UnpaddedIsNegative | src/ial_datasets/pipelines/data_transformation_numerical_features_binary_target_imbalanced/nodes.py:129-136 | for vowel and yeast_1 a target cell 'positive' without the space is labelled 0 |
| BalancedTransforms.Arcene | src/ial_datasets/pipelines/data_transformation_numerical_features_binary_target_balanced/nodes.py:6 | `data.columns[1500:]` is every column from position 1500 on, or none when there are at most 1500 columns |
| BalancedTransforms.ArceneFeatures | src/ial_datasets/pipelines/data_transformation_numerical_features_binary_target_balanced/nodes.py:4-6 | with more than 1500 columns the features are exactly the first 1500 input columns, in order |
| BalancedTransforms.TransformArcene | src/ial_datasets/pipelines/data_transformation_numerical_features_binary_target_balanced/nodes.py:4-6 | 1 in the last column is positive; the output has 1501 columns when the input has more than 1500 |
| BalancedTransforms.TransformAudit | src/ial_datasets/pipelines/data_transformation_numerical_features_binary_target_balanced/nodes.py:9-13 | success needs 'Risk' and 'LOCATION_ID'; one column narrower; 1 in 'Risk' is positive |
| BalancedTransforms.TransformBreastCancer | src/ial_datasets/pipelines/data_transformation_numerical_features_binary_target_balanced/nodes.py:21-25 | success needs '1' and '0'; one column narrower; 'M' in '1' is positive |
| BalancedTransforms.TransformIonosphere | src/ial_datasets/pipelines/data_transformation_numerical_features_binary_target_balanced/nodes.py:28-32 | success needs '0' and '1'; two columns narrower unless one is the last; 'b' in the last column is positive |
| BalancedTransforms.TransformParkinsons | src/ial_datasets/pipelines/data_transformation_numerical_features_binary_target_balanced/nodes.py:35-39 | success needs 'status' and 'name'; one column narrower; status 0 is positive |
| BalancedTransforms.ParkinsonsInverted | src/ial_datasets/pipelines/data_transformation_numerical_features_binary_target_balanced/nodes.py:35-39 | status 1 is labelled 0 and status 0 is labelled 1 |
| Transforms.Record | src/ial_datasets/pipelines/data_transformation_numerical_features_binary_target_imbalanced/nodes.py:6-136 | each dataset's argument record (arcene's from its columns); no record drops a column twice or drops its named target |
| Transforms.RunsArcene | src/ial_datasets/pipelines/data_transformation_numerical_features_binary_target_balanced/nodes.py:4-6 | the arcene node's transform is `transform_arcene` |
| Transforms.RunsAudit | src/ial_datasets/pipelines/data_transformation_numerical_features_binary_target_balanced/nodes.py:9-13 | the audit node's transform is `transform_audit` |
| Transforms.RunsBreastCancer | src/ial_datasets/pipelines/data_transformation_numerical_features_binary_target_balanced/nodes.py:21-25 | the breast_cancer node's transform is `transform_breast_cancer` |
| Transforms.RunsIonosphere | src/ial_datasets/pipelines/data_transformation_numerical_features_binary_target_balanced/nodes.py:28-32 | the ionosphere node's transform is `transform_ionosphere` |
| Transforms.RunsParkinsons | src/ial_datasets/pipelines/data_transformation_numerical_features_binary_target_balanced/nodes.py:35-39 | the parkinsons node's transform is `transform_parkinsons` |
| Transforms.RunsBreastTissue | src/ial_datasets/pipelines/data_transformation_numerical_features_binary_target_imbalanced/nodes.py:6-10 | the breast_tissue node's transform is `transform_breast_tissue` |
| Transforms.RunsEcoli | src/ial_datasets/pipelines/data_transformation_numerical_features_binary_target_imbalanced/nodes.py:13-17 | the ecoli node's transform is `transform_ecoli` |
| Transforms.RunsEucalyptus | src/ial_datasets/pipelines/data_transformation_numerical_features_binary_target_imbalanced/nodes.py:20-38 | the eucalyptus node's transform is `transform_eucalyptus`, '?' replacement included |
| Transforms.RunsGlass | src/ial_datasets/pipelines/data_transformation_numerical_features_binary_target_imbalanced/nodes.py:41-45 | the glass node's transform is `transform_glass` |
| Transforms.RunsHaberman | src/ial_datasets/pipelines/data_transformation_numerical_features_binary_target_imbalanced/nodes.py:48-52 | the haberman node's transform is `transform_haberman` |
| Transforms.RunsHeart | src/ial_datasets/pipelines/data_transformation_numerical_features_binary_target_imbalanced/nodes.py:55-57 | the heart node's transform is `transform_heart` |
| Transforms.RunsIris | src/ial_datasets/pipelines/data_transformation_numerical_features_binary_target_imbalanced/nodes.py:60-62 | the iris node's transform is `transform_iris` |
| Transforms.RunsMadelon | src/ial_datasets/pipelines/data_transformation_numerical_features_binary_target_imbalanced/nodes.py:65-69 | the madelon node's transform is `transform_madelon` |
| Transforms.RunsWine | src/ial_datasets/pipelines/data_transformation_numerical_features_binary_target_imbalanced/nodes.py:92-96 | the wine node's transform is `transform_wine` |
| Transforms.RunsKeel | src/ial_datasets/pipelines/data_transformation_numerical_features_binary_target_imbalanced/nodes.py:99-126 | the six KEEL datasets' nodes run the shared KEEL transform |
| Transforms.RunsKeelPadded | src/ial_datasets/pipelines/data_transformation_numerical_features_binary_target_imbalanced/nodes.py:129-136 | the vowel and yeast_1 nodes run the transform with ' positive' |
| Transforms.RunsDefaults | src/ial_datasets/pipelines/data_transformation_numerical_features_binary_target_imbalanced/nodes.py:82-89 | the banknote_authentication, pima, spambase and vehicle nodes run the all-defaults transform |
| Transforms.RunsOneIsPositive | src/ial_datasets/pipelines/data_transformation_numerical_features_binary_target_imbalanced/nodes.py:72-79 | the libras and liver nodes, which pass `[1]`, run the all-defaults transform |
| Transforms.TransformSettled | src/ial_datasets/pipelines/data_transformation_numerical_features_binary_target_imbalanced/nodes.py:6-136 | every successful transform is canonical, and the default normalisation leaves it unchanged |
| Processing.Samples | src/ial_datasets/pipelines/data_processing_numerical_features_binary_target_imbalanced/nodes.py:35-36 | each row splits into its other cells, in order, and its target cell |
| Processing.LabelCount | src/ial_datasets/pipelines/data_processing_numerical_features_binary_target_imbalanced/nodes.py:32 | a class count is at most the row count, and 0 exactly when no row has that label |
| Processing.ClassCounts | src/ial_datasets/pipelines/data_processing_numerical_features_binary_target_imbalanced/nodes.py:32 | `Counter` holds exactly the labels that occur, each with its number of rows |
| Processing.TruncDiv | src/ial_datasets/pipelines/data_processing_numerical_features_binary_target_imbalanced/nodes.py:33 | `int(a / b)` truncates toward zero: 0 ≤ q·b ≤ a, the remainder a − q·b is below \|b\|, and q ≥ 0 iff b > 0 or a < −b |
| Processing.Requested | src/ial_datasets/pipelines/data_processing_numerical_features_binary_target_imbalanced/nodes.py:32-33 | the request names the positive class, with int(count/factor), and every other occurring class, with its own count |
| Processing.ClassNumber | src/ial_datasets/pipelines/data_processing_numerical_features_binary_target_imbalanced/nodes.py:32-39 | the counter holds more than one class exactly when two rows have different targets |
| Processing.Rejection | src/ial_datasets/pipelines/data_processing_numerical_features_binary_target_imbalanced/nodes.py:34-39 | a request passes exactly when the target holds two classes or more and every requested class occurs and asks for between 0 and its count rows; a single class is the first error, an absent requested class the next |
| Processing.MakeImbalance | src/ial_datasets/pipelines/data_processing_numerical_features_binary_target_imbalanced/nodes.py:34-39 | fails exactly on a rejected request; otherwise returns a sub-multiset of the samples with exactly the requested count per listed class and all rows of the others |
| Processing.ChooseInOrder | src/ial_datasets/pipelines/data_processing_numerical_features_binary_target_imbalanced/nodes.py:34-39 | the selection keeps a sub-multiset of the samples: of a listed class, the requested number or all when fewer exist (none for a negative request); of any other class, every sample |
| Processing.Reassembled | src/ial_datasets/pipelines/data_processing_numerical_features_binary_target_imbalanced/nodes.py:40 | features then `target`, one row per sample, indexed 0..m-1 |
| Processing.ReassembledSamples | src/ial_datasets/pipelines/data_processing_numerical_features_binary_target_imbalanced/nodes.py:40 | a reassembled table is well formed iff its feature keys are distinct, and then splitting it gives the samples back |
| Processing.MakeDataImbalanced | src/ial_datasets/pipelines/data_processing_numerical_features_binary_target_imbalanced/nodes.py:31-41 | errors in source order (no `target`, factor 0, no `random_state`, rejected request); on success `target` is last, the index is 0..m-1, the rows are a sub-multiset, the positive count is int(count/factor), and every other count is unchanged |
| Processing.RequestedFactorOne | src/ial_datasets/pipelines/data_processing_numerical_features_binary_target_imbalanced/nodes.py:33 | factor 1 requests exactly the current counts |
| Processing.RequestedNoPositives | src/ial_datasets/pipelines/data_processing_numerical_features_binary_target_imbalanced/nodes.py:32-33 | with no positive row the request asks for 0 positives, and `make_imbalance` rejects it: as a single class when every row has the same target, otherwise because the positive class is absent |
| Processing.RequestAccepted | src/ial_datasets/pipelines/data_processing_numerical_features_binary_target_imbalanced/nodes.py:32-39 | the request passes iff the target holds two classes, some row is positive, and int(count/factor) ≥ 0 |
| Processing.FactorListsCount | src/ial_datasets/pipelines/data_processing_numerical_features_binary_target_imbalanced/nodes.py:6-28 | every factor list is 1, 2, ..., n |
| Processing.FactorMappingShape | src/ial_datasets/pipelines/data_processing_numerical_features_binary_target_imbalanced/nodes.py:6-28 | 21 datasets; every factor list starts at 1, increases strictly and stays within 1..9 |
| Processing.EntryFuncs | src/ial_datasets/pipelines/data_processing_numerical_features_binary_target_imbalanced/nodes.py:47-56 | one entry per factor, in listed order, each binding its own factor |
| Processing.ProcessFuncs | src/ial_datasets/pipelines/data_processing_numerical_features_binary_target_imbalanced/nodes.py:44-57 | as many entries as (dataset, factor) pairs, each function bound to its own entry's factor |
| Processing.Flatten | src/ial_datasets/pipelines/data_processing_numerical_features_binary_target_imbalanced/nodes.py:45-57 | the nested loop returns exactly the flattened list |
| Processing.GenerateProcessFuncs | src/ial_datasets/pipelines/data_processing_numerical_features_binary_target_imbalanced/nodes.py:44-57 | returns the flattening of `FACTOR_MAPPING` |
| Processing.ProcessFuncsLayout | src/ial_datasets/pipelines/data_processing_numerical_features_binary_target_imbalanced/nodes.py:46-56 | dataset k's entries follow those of datasets 0..k-1, one per factor in listed order |
| Processing.ProcessFuncsFrom | src/ial_datasets/pipelines/data_processing_numerical_features_binary_target_imbalanced/nodes.py:46-56 | every entry pairs a mapping dataset with one of its factors |
| Processing.ProcessFuncsDistinct | src/ial_datasets/pipelines/data_processing_numerical_features_binary_target_imbalanced/nodes.py:46-56 | with unique datasets and repeat-free factor lists, no two entries share a (dataset, factor) pair |
| Processing.TotalIsSum | src/ial_datasets/pipelines/data_processing_numerical_features_binary_target_imbalanced/nodes.py:44-57 | the number of entries is the sum of the factor-list lengths |
| Processing.ProcessFuncsCount | src/ial_datasets/pipelines/data_processing_numerical_features_binary_target_imbalanced/nodes.py:44-57 | `generate_process_funcs()` returns 90 entries |
| Datasets.ParseName | src/ial_datasets/pipelines/data_downloading/pipeline.py:36-65 | every dataset is recovered from its name |
| Datasets.NameInjective | src/ial_datasets/pipelines/data_downloading/pipeline.py:36-65 | no two datasets share a name |
| Datasets.Letters | src/ial_datasets/pipelines/data_downloading/pipeline.py:71 | no dataset name contains 'f', and only four (new_thyroid_1, new_thyroid_2, vowel, wine) can contain 'w' |
| Datasets.AscendingDistinct | src/ial_datasets/pipelines/data_downloading/pipeline.py:36-65 | a list in alphabetical order names each dataset once |
| Text.ReplaceAll | src/ial_datasets/pipelines/data_downloading/pipeline.py:71 | `str.replace`: a string starting with the pattern starts with the replacement, and one that does not keeps its first character |
| Text.StripPrefix | src/ial_datasets/pipelines/data_downloading/pipeline.py:71 | `replace(prefix, '')` on prefix + name gives the name when the name lacks a character of the prefix |
| Text.IntText | src/ial_datasets/pipelines/data_processing_numerical_features_binary_target_imbalanced/pipeline.py:14 | an f-string renders an int as digits, with a leading '-' iff negative, and ends in a digit |
| Text.IntTextInjective | src/ial_datasets/pipelines/data_processing_numerical_features_binary_target_imbalanced/pipeline.py:14 | distinct factors are rendered differently |
| Text.SplitAtLast | src/ial_datasets/pipelines/data_processing_numerical_features_binary_target_imbalanced/pipeline.py:13-21 | strings ending in '_' and a tail without '_' split there the same way |
| Nodes.Comprehension | src/ial_datasets/pipelines/data_downloading/pipeline.py:66-75 | a list comprehension builds one node per element, in order |
| DownloadPipeline.CreatePipeline | src/ial_datasets/pipelines/data_downloading/pipeline.py:66-75 | one node per listed download function, in list order, each the node built for that function |
| DownloadPipeline.DownloadNode | src/ial_datasets/pipelines/data_downloading/pipeline.py:68-73 | a node reads `parameters`, writes the function name without `download_` plus `_data`, and is named the function name plus `_data_node` |
| DownloadPipeline.PrefixLetter | src/ial_datasets/pipelines/data_downloading/pipeline.py:71 | every dataset name lacks some letter of `download_`, so the prefix occurs once |
| DownloadPipeline.DownloadOrder | src/ial_datasets/pipelines/data_downloading/pipeline.py:36-65 | 28 functions, listed in alphabetical order |
| DownloadPipeline.Downloaded | src/ial_datasets/pipelines/data_downloading/pipeline.py:36-65 | every dataset is downloaded, at its alphabetical position |
| DownloadPipeline.DownloadNodes | src/ial_datasets/pipelines/data_downloading/pipeline.py:66-75 | 28 nodes in list order, each with the input, output and name above |
| DownloadPipeline.DownloadDistinct | src/ial_datasets/pipelines/data_downloading/pipeline.py:36-72 | no two download nodes share an output or a name |
| DownloadPipeline.UnwiredAbsent | src/ial_datasets/pipelines/data_downloading/pipeline.py:36-65 | none of the twelve mixed-feature downloaders in `nodes.py` (abalone, acute, adult, annealing, contraceptive, credit_approval, echocardiogram, flags, heart_disease, hepatitis, german_credit, thyroid) is a node |
| DownloadPipeline.UnwiredUnparsed | src/ial_datasets/pipelines/data_downloading/nodes.py:11-608 | none of those twelve names is a dataset name |
| TransformPipeline.TransformNode | src/ial_datasets/pipelines/data_transformation_numerical_features_binary_target_imbalanced/pipeline.py:54-59 | a node runs the dataset's transform, reads `<name>_data`, writes `<name>_numerical_features_binary_target_<imbalanced or balanced>_data`, and is named the function name plus that suffix plus `_node` |
| TransformPipeline.TransformNodes | src/ial_datasets/pipelines/data_transformation_numerical_features_binary_target_imbalanced/pipeline.py:52-62 | the comprehension builds one node per listed function, in list order |
| TransformPipeline.NamesDistinct | src/ial_datasets/pipelines/data_transformation_numerical_features_binary_target_imbalanced/pipeline.py:29-51 | functions listed alphabetically are for different datasets, so the entries they write differ |
| TransformPipeline.TransformDistinct | src/ial_datasets/pipelines/data_transformation_numerical_features_binary_target_imbalanced/pipeline.py:54-59 | no two nodes of an alphabetical list share an output or a name |
| TransformPipeline.OutputDetermines | src/ial_datasets/pipelines/data_transformation_numerical_features_binary_target_imbalanced/pipeline.py:57 | a node's output determines its dataset |
| TransformPipeline.NameDetermines | src/ial_datasets/pipelines/data_transformation_numerical_features_binary_target_imbalanced/pipeline.py:58 | a node's name determines its dataset |
| ImbalancedPipeline.CreatePipeline | src/ial_datasets/pipelines/data_transformation_numerical_features_binary_target_imbalanced/pipeline.py:28-62 | one imbalanced transformation node per listed function, in list order |
| ImbalancedPipeline.TransformOrder | src/ial_datasets/pipelines/data_transformation_numerical_features_binary_target_imbalanced/pipeline.py:29-51 | 21 functions, in strictly alphabetical order |
| ImbalancedPipeline.ImbalancedNodes | src/ial_datasets/pipelines/data_transformation_numerical_features_binary_target_imbalanced/pipeline.py:52-62 | 21 nodes, each with the literal `_numerical_features_binary_target_imbalanced_data` output and name |
| ImbalancedPipeline.ImbalancedDistinct | src/ial_datasets/pipelines/data_transformation_numerical_features_binary_target_imbalanced/pipeline.py:54-59 | no two imbalanced transformation nodes share an output or a name |
| BalancedPipeline.CreatePipeline | src/ial_datasets/pipelines/data_transformation_numerical_features_binary_target_balanced/pipeline.py:14-34 | one balanced transformation node per listed function, in list order |
| BalancedPipeline.TransformOrder | src/ial_datasets/pipelines/data_transformation_numerical_features_binary_target_balanced/pipeline.py:15-23 | 7 functions, in strictly alphabetical order |
| BalancedPipeline.BalancedNodes | src/ial_datasets/pipelines/data_transformation_numerical_features_binary_target_balanced/pipeline.py:24-34 | 7 nodes, each with the literal `_numerical_features_binary_target_balanced_data` output and name |
| BalancedPipeline.BalancedDistinct | src/ial_datasets/pipelines/data_transformation_numerical_features_binary_target_balanced/pipeline.py:26-31 | no two balanced transformation nodes share an output or a name |
| ProcessingPipeline.ProcessNode | src/ial_datasets/pipelines/data_processing_numerical_features_binary_target_imbalanced/pipeline.py:9-23 | a node runs its entry's function, reads the imbalanced transformation's output for its dataset and `parameters`, writes that name plus `_<factor>`, and is named `<name>_<factor>_node` |
| ProcessingPipeline.AppendNodes | src/ial_datasets/pipelines/data_processing_numerical_features_binary_target_imbalanced/pipeline.py:8-23 | the loop appends exactly one node per entry, in entry order |
| ProcessingPipeline.CreatePipeline | src/ial_datasets/pipelines/data_processing_numerical_features_binary_target_imbalanced/pipeline.py:6-24 | the pipeline is the node list of `generate_process_funcs()` |
| ProcessingPipeline.FactorKeys | src/ial_datasets/pipelines/data_processing_numerical_features_binary_target_imbalanced/nodes.py:6-28 | the keys of `FACTOR_MAPPING` are the 21 imbalanced transformation datasets, in the same order |
| ProcessingPipeline.MappingDistinct | src/ial_datasets/pipelines/data_processing_numerical_features_binary_target_imbalanced/nodes.py:6-28 | no dataset is listed twice and no factor list repeats a factor |
| ProcessingPipeline.ProcessingNodes | src/ial_datasets/pipelines/data_processing_numerical_features_binary_target_imbalanced/pipeline.py:7-23 | 90 nodes, node i built from entry i with the literal input, output and name strings |
| ProcessingPipeline.EntriesDistinct | src/ial_datasets/pipelines/data_processing_numerical_features_binary_target_imbalanced/nodes.py:44-57 | no two entries of `generate_process_funcs()` share a (dataset, factor) pair |
| ProcessingPipeline.ProcessingDistinct | src/ial_datasets/pipelines/data_processing_numerical_features_binary_target_imbalanced/pipeline.py:13-21 | no two processing nodes share an output or a name |
| ProcessingPipeline.OutputDetermines | src/ial_datasets/pipelines/data_processing_numerical_features_binary_target_imbalanced/pipeline.py:13-15 | an output determines both the dataset and the factor |
| ProcessingPipeline.NameDetermines | src/ial_datasets/pipelines/data_processing_numerical_features_binary_target_imbalanced/pipeline.py:21 | a node name determines both the dataset and the factor |
| Wiring.Registry | src/ial_datasets/pipelines/data_processing_numerical_features_binary_target_imbalanced/pipeline.py:6-24 | the four pipelines hold 146 nodes together: 28 downloads, 21 and 7 transformations, 90 processing nodes |
| Wiring.Stages | src/ial_datasets/pipelines/data_processing_numerical_features_binary_target_imbalanced/pipeline.py:6-24 | the registry lists download nodes, then imbalanced and balanced transformation nodes, then processing nodes |
| Wiring.Split | src/ial_datasets/pipelines/data_transformation_numerical_features_binary_target_balanced/pipeline.py:15-23 | the balanced pipeline lists exactly the seven balanced datasets and the imbalanced pipeline exactly the others |
| Wiring.Partition | src/ial_datasets/pipelines/data_transformation_numerical_features_binary_target_balanced/pipeline.py:15-23 | every dataset is downloaded and transformed by exactly one of the two transformation pipelines |
| Wiring.OutputsDistinct | src/ial_datasets/pipelines/data_transformation_numerical_features_binary_target_imbalanced/pipeline.py:57 | across all four pipelines, no two nodes write the same entry |
| Wiring.DownloadInputs | src/ial_datasets/pipelines/data_downloading/pipeline.py:70 | a download node reads only `parameters` |
| Wiring.ImbalancedProducer | src/ial_datasets/pipelines/data_transformation_numerical_features_binary_target_imbalanced/pipeline.py:56 | an imbalanced transformation's input is written by a download node |
| Wiring.BalancedProducer | src/ial_datasets/pipelines/data_transformation_numerical_features_binary_target_balanced/pipeline.py:28 | a balanced transformation's input is written by a download node |
| Wiring.ProcessedProducer | src/ial_datasets/pipelines/data_processing_numerical_features_binary_target_imbalanced/pipeline.py:10-12 | a processing node's table input is written by an imbalanced transformation node |
| Wiring.Transformed | src/ial_datasets/pipelines/data_processing_numerical_features_binary_target_imbalanced/nodes.py:6-28 | every entry's dataset is listed by the imbalanced transformation pipeline |
| Wiring.ProducedOnce | src/ial_datasets/pipelines/data_processing_numerical_features_binary_target_imbalanced/pipeline.py:19 | every entry a node reads, other than `parameters`, is written by an earlier node and by no other node |

## Left out

- Downloading (`data_downloading/nodes.py`) is not modelled: every function is an HTTP request, a zip extraction or a pandas parser call. Only the function names matter to the model, as the names of the download nodes.
- Kedro is not modelled: the node and pipeline objects, the data catalog and its persistence, scheduling, configuration loading. `Wiring.Registry` lists the nodes in the order data flows through them; kedro's own ordering is not modelled.
- Float parsing is the `cast` parameter (Python's `float(text)`): it says whether text reads as a number, as NaN, or not at all. Numbers are reals, so the integer 1 and the float 1.0 are the same cell, as they are for `isin`. Float rounding is not modelled.
- Normalise.CastValue: text that `float` reads as infinity ('inf', '-inf') is not modelled, because reals have no infinity; the `cast` parameter can only map such text to a number or to not castable.
- pandas details beyond a row-wise table are not modelled: dtypes, index alignment, duplicate column names (a well-formed table has distinct keys), and column keys turning into strings after a CSV round trip.
- Processing.MakeImbalance: which rows of a listed class imblearn keeps is a random choice under `random_state`. The contract states only the per-class counts and the sub-multiset, and the body (`Processing.ChooseInOrder`) keeps the first rows. The random state is checked to exist but is not used.
- Processing.Rejection: imblearn is not part of this model. Its validation of the request is modelled as four checks, in this order: the target must hold more than one class, a requested class must occur, and its count must be non-negative and at most the class size. A request of 0 rows passes.
- Processing.TruncDiv: `int(count / factor)` divides exactly. The float division in the source agrees for the counts and factors used here.
- The functions that `generate_process_funcs` builds are modelled as their bound factor (`Processing.Imbalancer`). Applying one is `Processing.MakeDataImbalanced` with that factor.
