# Chest X-ray dataset inspection: a verified model

This project models the dataset-inspection utilities of a pneumonia
detection project. The dataset is a root folder of subset folders
(`train`, `test`, `val`). Each subset folder holds class folders
(`NORMAL`, `PNEUMONIA`), and each class folder holds image files. Five
operations walk this grid:

- **Counting** (`ImageCounter`): the images in one folder. A folder that
  does not exist holds 0 images. Otherwise an entry is an image when the
  lower-cased suffix of its name is `.jpg`, `.jpeg`, `.png`, `.bmp` or
  `.tiff`.
- **Statistics** (`Statistics`): an entry per existing subset. Each entry
  has a count per class and a subset total, and there is one total for the
  whole dataset.
- **Class weights** (`ClassWeights`): one weight per class index. The
  weight is `total / (classes * count)` when the class has images, and 1.0
  when it has none.
- **Validation** (`Validator`): one pass over the grid reports every
  missing folder as an issue and every small class folder as a warning.
  Two dataset-wide rules follow: a class imbalance in `train` above 2:1,
  and a `val` split under 100 images. Each rule adds a warning and a
  recommendation.
- **Property sampling** (`Sampler`): at most `sample_size` `*.jpg` and then
  `*.jpeg` files per class folder are opened. Each opened file appends to
  four parallel lists.

The filesystem is a value, `Layout.Tree`. It maps every existing subset to
its existing class folders, and each class folder to its entry names in
listing order. The class and subset lists are a `Layout.Config` handed to
every operation. `Layout.Default` holds the repository's values (config.py:21-22): the
classes `NORMAL`, `PNEUMONIA` and the subsets `train`, `test`, `val`, in
that order.

Each loop of the source is a `method` with a `while` loop. Its `ensures`
ties the result to a recursive function of the inputs. The properties the
utilities promise are proved about those functions, as lemmas and as
`ensures` clauses.

Two consequences of the code are easy to miss. With only `train` holding
5 normal and 20 pneumonia images, the validator also warns of a 4.0
imbalance and recommends rebalancing (utils.py:393-397,
`Validator.TrainOnlyScenario`). The sampler's four appends run one after
the other inside one `try`, so a read that fails after the first append
leaves the lists of unequal length (utils.py:157-158,
`Sampler.PartialFailureMisaligns`); when no read fails part-way they line
up (`Sampler.AlignedWithoutPartialFailure`).

## Model

| member | source | states |
|---|---|---|
| Layout.Listing | utils.py:52-53 | a folder's listing is present exactly when the subset folder and the class folder exist |
| Layout.Filter | utils.py:56-57 | a kept list is never longer than the list it filters |
| Layout.FilterMembers | utils.py:56-57 | an element is kept exactly when it occurs in the list and satisfies the condition |
| Layout.FilterLengthIsPositions | utils.py:56-57 | the number kept is the number of satisfying positions |
| Layout.FilterMultiplicity | utils.py:56-57 | a kept element is kept as often as it occurs; a dropped one never |
| Layout.FilterKeepsAllIff | utils.py:56-57 | everything is kept exactly when every element satisfies the condition |
| Layout.FilterConcat | utils.py:56-57 | filtering a concatenation filters each part |
| Layout.FilterDisjointSum | utils.py:151 | two filters with conditions no element meets together keep at most the whole list |
| ImageCounter.LastIndexOf | utils.py:57 | the result is -1 or an index holding the character, and no later index holds it |
| ImageCounter.Suffix | utils.py:57 | the suffix is non-empty exactly when the last dot of the name is neither its first nor its last character, and it is then the text from that dot on; it never contains a further dot |
| ImageCounter.Lower | utils.py:57 | lower-casing keeps the length and maps each character on its own |
| ImageCounter.IsImage | utils.py:55-57 | an entry is an image exactly when its last dot lies strictly inside the name and the lower-cased text from that dot is one of `.jpg`, `.jpeg`, `.png`, `.bmp`, `.tiff` |
| ImageCounter.CountImages | utils.py:52-57 | a missing folder counts 0; an existing one counts at most its number of entries |
| ImageCounter.CountIsImagePositions | utils.py:56-57 | the count is the number of entries with an image suffix, each counted as often as listed |
| ImageCounter.CountAllIffAllImages | utils.py:56-57 | every entry is counted exactly when every entry is an image |
| ImageCounter.CountConcat | utils.py:56-57 | counting is additive over listings |
| ImageCounter.UpperCaseExtensionIsImage | utils.py:55-57 | an upper-case extension is matched after lower-casing |
| ImageCounter.LastSuffixOfImage | utils.py:55-57 | a name with two dots is classified by its last extension |
| ImageCounter.LastSuffixOfText | utils.py:55-57 | an image extension followed by another extension does not make an image |
| ImageCounter.HiddenNameHasNoSuffix | utils.py:55-57 | a name that is only a dot and an extension has no suffix |
| ImageCounter.TrailingDotHasNoSuffix | utils.py:55-57 | a name ending in a dot has no suffix |
| ImageCounter.TifIsNotTiff | utils.py:55-57 | `.tif` is not one of the extensions |
| Statistics.StatsOf | utils.py:69-88 | the statistics of a tree: an entry exactly for the configured subsets that exist, holding exactly the configured classes with their folder counts, and the dataset total over the existing subsets |
| Statistics.GetDatasetStatistics | utils.py:69-88 | an entry exists exactly for the configured subsets that exist; it holds exactly the configured classes with their folder counts; the result keeps the sum invariant |
| Statistics.CountSubset | utils.py:78-85 | builds the class counts and total of one existing subset |
| Statistics.SumCountsOfTree | utils.py:78-84 | a built subset's class counts sum to its total |
| Statistics.SumTotalsOfTree | utils.py:85-87 | the built subset totals sum to the dataset total |
| Statistics.StatsOfConsistent | utils.py:69-88 | each subset total is the sum of its class counts, and the dataset total is the sum of the subset totals |
| Statistics.NoSubsetsNoImages | utils.py:72-76 | with no subset folder on disk the statistics have no entry and a total of 0 |
| Statistics.EmptySubsetRecordsZeros | utils.py:74-84 | an existing subset without class folders has an entry with zero counts and total 0 |
| ClassWeights.Weight | utils.py:113-118 | a class without images weighs 1.0; otherwise weight times classes times count is the total |
| ClassWeights.CalculateClassWeights | utils.py:90-120 | the keys are exactly 0 to n-1, and key i holds the weight of class i |
| ClassWeights.CountPerClass | utils.py:101-107 | each class's total over the subsets that have an entry, with 0 for absent keys |
| ClassWeights.AddSubset | utils.py:104-107 | adding one subset's recorded counts to the per-class totals |
| ClassWeights.SumClassCounts | utils.py:110 | the total is the sum of the per-class totals |
| ClassWeights.BalancedMass | utils.py:115-116 | a class with images has count times weight equal to the even share, total over n |
| ClassWeights.WeightedSamplesPreserveTotal | utils.py:113-118 | when every class has images, the weighted counts sum to the total |
| ClassWeights.RarerWeighsMore | utils.py:115-116 | a class with fewer images never weighs less |
| ClassWeights.AboveOneIffUnderRepresented | utils.py:115-116 | a class with images weighs more than 1 exactly when its count times n is below the total |
| ClassWeights.SampleTotalIsRowSums | utils.py:101-110 | summing by class equals summing by subset |
| ClassWeights.TotalSamplesOfConsistent | utils.py:101-110 | on statistics that keep their invariant, the weights' total is the dataset total |
| ClassWeights.TwoClassExample | utils.py:113-118 | 100 and 370 images give weights 2.35 and 470/740 |
| Validator.Ratio | utils.py:393-394 | the ratio of two positive counts is at least 1, and it times the smaller count is the larger |
| Validator.Imbalanced | utils.py:389-395 | the rule holds exactly when `train` has an entry, both recorded counts are positive and the larger is more than twice the smaller |
| Validator.SmallValidationSet | utils.py:400-401 | the rule never holds without a `val` entry, and always holds for an existing `val` with no image |
| Validator.Validation | utils.py:347-404 | the result of a tree: valid exactly when every configured folder exists, exactly when there is no issue, with at most 2 recommendations |
| Validator.ValidateDatasetStructure | utils.py:347-404 | the structure is valid exactly when no configured folder is missing, exactly when there is no issue; at most 2 recommendations |
| Validator.CheckGrid | utils.py:365-383 | the validity flag, issues and warnings of the first pass, in subset-then-class order |
| Validator.CheckClasses | utils.py:372-383 | the same for the class folders of one existing subset |
| Validator.CheckFolder | utils.py:379-383 | an existing folder with 10 or more images gives no warning; otherwise one warning by count |
| Validator.ApplyRules | utils.py:386-402 | the imbalance rule, then the small-validation rule, each adding a warning and a recommendation |
| Validator.IssuesEmptyIffComplete | utils.py:365-376 | there is no issue exactly when every configured folder exists |
| Validator.IssuesNameMissingFolders | utils.py:365-376 | a missing-subset issue appears exactly for a missing configured subset; a missing-class issue exactly for a missing class folder of an existing subset |
| Validator.IssuesDistinct | utils.py:365-376 | with distinct names no issue repeats, so there is one issue per missing folder |
| Validator.FolderWarningsExact | utils.py:377-383 | the first pass warns only about existing folders: no image exactly at 0, very few exactly at 1 to 9 with that count; missing folders give no warning |
| Validator.RatioAboveLimit | utils.py:393-395 | the ratio exceeds 2.0 exactly when the larger count is more than twice the smaller |
| Validator.ImbalanceRule | utils.py:389-397 | the imbalance holds exactly when `train` exists, both counts are positive and the larger is more than twice the smaller |
| Validator.SmallValidationRule | utils.py:400-402 | the small-validation rule holds exactly when `val` exists with fewer than 100 images |
| Validator.RecommendationsFollowRules | utils.py:389-402 | at most 2 recommendations, each present exactly when its rule's warning is |
| Validator.GridWarningsArePerFolder | utils.py:379-383 | the first pass warns only of empty or small folders |
| Validator.RuleWarningsMatchRecommendations | utils.py:389-402 | each rule's recommendation is present exactly when its warning is; at most two |
| Validator.ImbalanceThresholds | utils.py:393-395 | 1000 against 2900 is an imbalance of 2.9; 1900 is not, and 2000 sits exactly at the limit |
| Validator.SmallValidationBoundary | utils.py:400-402 | 99 images trigger the rule and 100 do not |
| Validator.TrainOnlyScenario | utils.py:347-404 | with only `train` (5 normal, 20 pneumonia), the missing `test` and `val` are the issues and the result is invalid; the warnings are the small class and a 4.0 imbalance, with one rebalance recommendation |
| Sampler.IsJpg | utils.py:151 | no name matches both `*.jpg` and `*.jpeg`; every `*.jpg` match but the hidden name `.jpg` is counted as an image |
| Sampler.IsJpeg | utils.py:151 | every `*.jpeg` match but the hidden name `.jpeg` is counted as an image |
| Sampler.Globbed | utils.py:151 | the globbed names are at most the entries |
| Sampler.Take | utils.py:152 | a slice is a prefix of the length Python gives it, for negative bounds too |
| Sampler.SampleNames | utils.py:151-152 | the sample is a prefix of the globbed names, of length min(sample_size, n) for a non-negative size and n minus the size's magnitude (at least 0) for a negative one |
| Sampler.Refs | utils.py:154 | one file per sampled name, in order |
| Sampler.PairFiles | utils.py:145-152 | no file from a missing class folder; otherwise one per sampled name |
| Sampler.Step | utils.py:155-162 | one file grows each list by at most one element, never a later list without the earlier ones, and a file failing at once changes nothing |
| Sampler.AnalyzeImageProperties | utils.py:133-164 | the lists reading the sample in order would give; their lengths are ordered and bounded by the number of sampled files |
| Sampler.AnalyzeSubset | utils.py:145-162 | reading the samples of one subset's class folders in class order |
| Sampler.ProbeFiles | utils.py:154-162 | reading one folder's sample file by file, stopping each file at its first failure |
| Sampler.CollectFromConcat | utils.py:140-162 | reading two file lists in turn is reading their concatenation |
| Sampler.CollectFromBounds | utils.py:154-162 | reading keeps dimensions ≥ sizes ≥ formats ≥ modes and adds at most one dimension per file |
| Sampler.Analysis | utils.py:133-164 | list k of the result (dimensions, sizes, formats, modes) holds exactly the entries of the sampled files whose read completed at least k appends, in reading order |
| Sampler.AnalysisBounds | utils.py:133-164 | the sampler's lists satisfy dimensions ≥ sizes ≥ formats ≥ modes, and no list exceeds the sampled files |
| Sampler.Reaching | utils.py:155-160 | the files whose read completed at least k appends, in reading order, never more than the files read |
| Sampler.ReachingMembers | utils.py:154-162 | a file is among them exactly when it was read and its read completed at least k appends, whatever failed before it |
| Sampler.CollectFromReaching | utils.py:154-162 | whatever fails, list k grows by exactly the entries of the files whose read completed at least k appends |
| Sampler.NoFailureReadsAll | utils.py:140-162 | when every sampled file is read in full, the four lists are one aligned row per sampled file, so all are as long as the sample |
| Sampler.Table | utils.py:157-160 | four equally long lists, one row per file |
| Sampler.AlignedWithoutPartialFailure | utils.py:155-162 | when no file fails after its first append, the lists are one aligned row per fully read file, and failed files are skipped |
| Sampler.EqualLengthsWithoutPartialFailure | utils.py:155-162 | when no file fails after its first append, all four lists are equally long |
| Sampler.PartialFailureMisaligns | utils.py:157-158 | a file failing at the size read leaves one dimension and nothing else |
| Sampler.SampleMembers | utils.py:151-152 | every sampled name is an entry matching `*.jpg` or `*.jpeg`; with a large enough size every match is sampled |
| Sampler.JpgBeforeJpeg | utils.py:151 | every `*.jpg` match precedes every `*.jpeg` match |
| Sampler.CountedButNotSampled | utils.py:151 | `scan.JPG` and `scan.png` are counted as images but never sampled |
| Sampler.SampledFilesFromPresentPairs | utils.py:140-154 | every sampled file lies in an existing configured class folder and is in that folder's sample |

## Left out

- Logging setup, the project header, the plots and the JSON report are I/O and presentation, so they are not modelled. So is the `logging.warning` call in the sampler's error branch: only the skipping is modelled.
- The analysis driver script and the two git scripts only orchestrate and print; they are not part of this model.
- Creating the output folders at import time (config.py:17-18) is filesystem I/O.
- Image decoding and `stat()` are an oracle `FileRef -> Probe`. It says how many of the four appends completed before the read raised. What PIL reports and which exceptions it raises are outside the model.
- Filesystem errors that propagate are not modelled: a listing that fails, and a class path that is a file, whose `iterdir()` raises while counting (utils.py:56). The model's tree has only folders. A subset path that is a file raises nothing: `exists()` is false for every class path below it, so the statistics record zero counts, the validator reports every class as missing and the sampler skips it. That is the model's subset with no class folder.
- Messages are constructors (`MissingSubset`, `FewImages`, `Imbalance`, …) carrying the values the source formats into its strings. The French texts and the two-decimal formatting of the ratio are not modelled.
- ClassWeights.CalculateClassWeights: computes over exact reals, not floating point, so rounding of the division is not modelled. Validator.Ratio is exact in the same way.
- ClassWeights.CalculateClassWeights: requires distinct class names. The source keys its counts by name, so a repeated name would be counted twice. The configured list is distinct.
- ImageCounter.Lower: lower-cases ASCII letters only. Non-ASCII lower-casing cannot produce one of the five ASCII extensions, so the count is unaffected.
- ImageCounter.Suffix: follows the suffix rule of pathlib through Python 3.13, which treats a name ending in a dot as having no suffix.
- Statistics: the entry of a subset keeps its total in a separate field. The source stores it under the key `'total'` in the same dictionary as the class counts, so a class named `total` would clash with it; the configured classes do not.
- Statistics: the dataset total is a separate field rather than the key `'total_dataset'` beside the subset names, which cannot clash because the subset names differ from it.
- Sampler: the sample size is a parameter. Its default of 50 (utils.py:122) and the value 100 the analysis script passes are not fixed by the model.
- Sampler: glob order is the listing order of the model's tree. The order the operating system lists a folder in is outside the model.
- Sampler: a glob pattern matches every entry name that ends with the extension. This includes hidden names such as `.jpg`, and entries that are folders.
