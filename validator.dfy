/** Checking the dataset layout. A first pass over the subset-by-class grid
    reports every missing folder as an issue, which makes the structure
    invalid, and every existing class folder with no image or with fewer
    than ten as a warning. Two dataset-wide rules then add a warning and a
    recommendation each: a class imbalance in `train` above 2:1, and a
    `val` split of fewer than 100 images. */
module Validator {
  import opened Layout
  import opened ImageCounter
  import opened Statistics
  import opened RealArith

  datatype Issue =
    | MissingSubset(subset: string)
    | MissingClass(subset: string, className: string)

  datatype Warning =
    | NoImages(subset: string, className: string)
    | FewImages(subset: string, className: string, count: nat)
    | Imbalance(ratio: real)
    | SmallValidation(total: nat)

  datatype Recommendation = Rebalance | Redistribute

  datatype ValidationResult = ValidationResult(
    structureValid: bool,
    issues: seq<Issue>,
    warnings: seq<Warning>,
    recommendations: seq<Recommendation>)

  /** A class folder with fewer images than this (and at least one) is "very small". */
  const FewImagesLimit: nat := 10
  /** A validation split with fewer images than this is too small. */
  const SmallValidationLimit: nat := 100
  /** A majority-to-minority ratio above this is an imbalance. */
  const ImbalanceLimit: real := 2.0

  // ----- The first pass, as functions of the tree -----

  /** Every configured subset folder exists and holds every configured class folder. */
  predicate Complete(t: Tree, subsets: seq<string>, classes: seq<string>)
  {
    forall s :: s in subsets ==> s in t.dirs && forall c :: c in classes ==> c in t.dirs[s]
  }

  /** The warnings for an existing class folder holding `n` images. */
  function FolderWarnings(s: string, c: string, n: nat): seq<Warning>
  {
    if n == 0 then [NoImages(s, c)]
    else if n < FewImagesLimit then [FewImages(s, c, n)]
    else []
  }

  /** The issues found among the class folders of existing subset `s`. */
  function ClassIssues(t: Tree, s: string, classes: seq<string>): seq<Issue>
  {
    if |classes| == 0 then []
    else
      var c := classes[|classes| - 1];
      ClassIssues(t, s, classes[..|classes| - 1]) + (if ClassExists(t, s, c) then [] else [MissingClass(s, c)])
  }

  /** The warnings found among the class folders of existing subset `s`. */
  function ClassWarnings(t: Tree, s: string, classes: seq<string>): seq<Warning>
  {
    if |classes| == 0 then []
    else
      var c := classes[|classes| - 1];
      ClassWarnings(t, s, classes[..|classes| - 1])
        + (if ClassExists(t, s, c) then FolderWarnings(s, c, ClassCount(t, s, c)) else [])
  }

  /** The issues of the first pass, in subset-then-class order. */
  function GridIssues(t: Tree, subsets: seq<string>, classes: seq<string>): seq<Issue>
  {
    if |subsets| == 0 then []
    else
      var s := subsets[|subsets| - 1];
      GridIssues(t, subsets[..|subsets| - 1], classes)
        + (if s in t.dirs then ClassIssues(t, s, classes) else [MissingSubset(s)])
  }

  /** The warnings of the first pass, in subset-then-class order. */
  function GridWarnings(t: Tree, subsets: seq<string>, classes: seq<string>): seq<Warning>
  {
    if |subsets| == 0 then []
    else
      var s := subsets[|subsets| - 1];
      GridWarnings(t, subsets[..|subsets| - 1], classes)
        + (if s in t.dirs then ClassWarnings(t, s, classes) else [])
  }

  // ----- The two dataset-wide rules, as functions of the statistics -----

  /** The majority-to-minority ratio of two positive counts. */
  function Ratio(a: nat, b: nat): (r: real)
    requires a > 0 && b > 0
    ensures r >= 1.0
    ensures r * Min(a, b) as real == Max(a, b) as real
  {
    var q := Max(a, b) as real / Min(a, b) as real;
    CancelPositive(q, 1.0, Min(a, b) as real);
    q
  }

  /** `train` has an entry, both of its diagnostic classes have images,
      and their ratio is above the limit: one class has more than twice the
      images of the other. */
  predicate Imbalanced(st: Stats)
    ensures Imbalanced(st) <==>
              && "train" in st.subsets
              && Recorded(st, "train", "NORMAL") > 0 && Recorded(st, "train", "PNEUMONIA") > 0
              && Max(Recorded(st, "train", "NORMAL"), Recorded(st, "train", "PNEUMONIA"))
                   > 2 * Min(Recorded(st, "train", "NORMAL"), Recorded(st, "train", "PNEUMONIA"))
  {
    && "train" in st.subsets
    && var normal := Recorded(st, "train", "NORMAL");
       var pneumonia := Recorded(st, "train", "PNEUMONIA");
       normal > 0 && pneumonia > 0 && (RatioAboveLimit(normal, pneumonia); Ratio(normal, pneumonia) > ImbalanceLimit)
  }

  /** `val` has an entry whose total is below the limit. A missing `val`
      never triggers the rule; an existing but empty one always does. */
  predicate SmallValidationSet(st: Stats)
    ensures SmallValidationSet(st) ==> "val" in st.subsets
    ensures "val" in st.subsets && st.subsets["val"].total == 0 ==> SmallValidationSet(st)
  {
    "val" in st.subsets && st.subsets["val"].total < SmallValidationLimit
  }

  function RuleWarnings(st: Stats): seq<Warning>
  {
    (if Imbalanced(st) then [Imbalance(Ratio(Recorded(st, "train", "NORMAL"), Recorded(st, "train", "PNEUMONIA")))] else [])
      + (if SmallValidationSet(st) then [SmallValidation(st.subsets["val"].total)] else [])
  }

  function RuleRecommendations(st: Stats): seq<Recommendation>
  {
    (if Imbalanced(st) then [Rebalance] else []) + (if SmallValidationSet(st) then [Redistribute] else [])
  }

  /** The result the validator computes for tree `t`. */
  function Validation(t: Tree, cfg: Config): (r: ValidationResult)
    ensures r.structureValid <==> Complete(t, cfg.subsets, cfg.classes)
    ensures r.structureValid <==> r.issues == []
    ensures |r.recommendations| <= 2
  {
    var st := StatsOf(t, cfg);
    IssuesEmptyIffComplete(t, cfg.subsets, cfg.classes);
    RuleWarningsMatchRecommendations(st);
    ValidationResult(
      Complete(t, cfg.subsets, cfg.classes),
      GridIssues(t, cfg.subsets, cfg.classes),
      GridWarnings(t, cfg.subsets, cfg.classes) + RuleWarnings(st),
      RuleRecommendations(st))
  }

  // ----- The operation -----

  /** Runs the first pass over the grid, flipping the validity flag at each
      missing folder, then builds the statistics and applies the two rules. */
  method ValidateDatasetStructure(t: Tree, cfg: Config) returns (r: ValidationResult)
    ensures r == Validation(t, cfg)
    ensures r.structureValid <==> Complete(t, cfg.subsets, cfg.classes)
    ensures r.structureValid <==> r.issues == []
    ensures |r.recommendations| <= 2
  {
    var structureValid, issues, warnings := CheckGrid(t, cfg);
    var stats := GetDatasetStatistics(t, cfg);
    var ruleWarnings, recommendations := ApplyRules(stats);
    r := ValidationResult(structureValid, issues, warnings + ruleWarnings, recommendations);
  }

  /** The first pass: the outer loop over the configured subsets. */
  method CheckGrid(t: Tree, cfg: Config) returns (structureValid: bool, issues: seq<Issue>, warnings: seq<Warning>)
    ensures structureValid == Complete(t, cfg.subsets, cfg.classes)
    ensures issues == GridIssues(t, cfg.subsets, cfg.classes)
    ensures warnings == GridWarnings(t, cfg.subsets, cfg.classes)
  {
    structureValid, issues, warnings := true, [], [];
    var i := 0;
    while i < |cfg.subsets|
      invariant 0 <= i <= |cfg.subsets|
      invariant issues == GridIssues(t, cfg.subsets[..i], cfg.classes)
      invariant structureValid <==> issues == []
      invariant warnings == GridWarnings(t, cfg.subsets[..i], cfg.classes)
    {
      var subset := cfg.subsets[i];
      GridSnoc(t, cfg.subsets, cfg.classes, i);
      if subset !in t.dirs {
        issues := issues + [MissingSubset(subset)];
        structureValid := false;
      } else {
        var allPresent, classIssues, classWarnings := CheckClasses(t, subset, cfg.classes);
        issues := issues + classIssues;
        warnings := warnings + classWarnings;
        structureValid := structureValid && allPresent;
      }
      i := i + 1;
    }
    assert cfg.subsets[..i] == cfg.subsets;
    IssuesEmptyIffComplete(t, cfg.subsets, cfg.classes);
  }

  /** The two dataset-wide rules applied to the statistics. */
  method ApplyRules(stats: Stats) returns (warnings: seq<Warning>, recommendations: seq<Recommendation>)
    ensures warnings == RuleWarnings(stats)
    ensures recommendations == RuleRecommendations(stats)
  {
    warnings, recommendations := [], [];
    if "train" in stats.subsets {
      var normal := if "NORMAL" in stats.subsets["train"].counts then stats.subsets["train"].counts["NORMAL"] else 0;
      var pneumonia := if "PNEUMONIA" in stats.subsets["train"].counts then stats.subsets["train"].counts["PNEUMONIA"] else 0;
      if normal > 0 && pneumonia > 0 {
        var ratio := Max(normal, pneumonia) as real / Min(normal, pneumonia) as real;
        if ratio > ImbalanceLimit {
          warnings := warnings + [Imbalance(ratio)];
          recommendations := recommendations + [Rebalance];
        }
      }
    }
    if "val" in stats.subsets && stats.subsets["val"].total < SmallValidationLimit {
      warnings := warnings + [SmallValidation(stats.subsets["val"].total)];
      recommendations := recommendations + [Redistribute];
    }
  }

  /** The inner loop over the class folders of one existing subset. */
  method CheckClasses(t: Tree, subset: string, classes: seq<string>)
    returns (allPresent: bool, issues: seq<Issue>, warnings: seq<Warning>)
    requires subset in t.dirs
    ensures allPresent <==> forall c :: c in classes ==> c in t.dirs[subset]
    ensures allPresent <==> issues == []
    ensures issues == ClassIssues(t, subset, classes)
    ensures warnings == ClassWarnings(t, subset, classes)
  {
    allPresent, issues, warnings := true, [], [];
    var j := 0;
    while j < |classes|
      invariant 0 <= j <= |classes|
      invariant issues == ClassIssues(t, subset, classes[..j])
      invariant allPresent <==> issues == []
      invariant warnings == ClassWarnings(t, subset, classes[..j])
    {
      var className := classes[j];
      ClassSnoc(t, subset, classes, j);
      if className !in t.dirs[subset] {
        issues := issues + [MissingClass(subset, className)];
        allPresent := false;
      } else {
        var imageCount := CountImages(Listing(t, subset, className));
        var folderWarnings := CheckFolder(subset, className, imageCount);
        warnings := warnings + folderWarnings;
      }
      j := j + 1;
    }
    assert classes[..j] == classes;
    ClassIssuesEmptyIff(t, subset, classes);
  }

  /** One more subset extends the first pass by that subset's findings. */
  lemma GridSnoc(t: Tree, subsets: seq<string>, classes: seq<string>, i: nat)
    requires i < |subsets|
    ensures GridIssues(t, subsets[..i + 1], classes) == GridIssues(t, subsets[..i], classes)
              + (if subsets[i] in t.dirs then ClassIssues(t, subsets[i], classes) else [MissingSubset(subsets[i])])
    ensures GridWarnings(t, subsets[..i + 1], classes) == GridWarnings(t, subsets[..i], classes)
              + (if subsets[i] in t.dirs then ClassWarnings(t, subsets[i], classes) else [])
  {
    assert subsets[..i + 1] == subsets[..i] + [subsets[i]];
    assert subsets[..i + 1][..i] == subsets[..i];
  }

  /** One more class extends the findings of a subset by that class's. */
  lemma ClassSnoc(t: Tree, s: string, classes: seq<string>, j: nat)
    requires j < |classes|
    ensures ClassIssues(t, s, classes[..j + 1]) == ClassIssues(t, s, classes[..j])
              + (if ClassExists(t, s, classes[j]) then [] else [MissingClass(s, classes[j])])
    ensures ClassWarnings(t, s, classes[..j + 1]) == ClassWarnings(t, s, classes[..j])
              + (if ClassExists(t, s, classes[j]) then FolderWarnings(s, classes[j], ClassCount(t, s, classes[j])) else [])
  {
    assert classes[..j + 1][..j] == classes[..j];
  }

  /** The warnings for one existing class folder with `imageCount` images. */
  method CheckFolder(subset: string, className: string, imageCount: nat) returns (warnings: seq<Warning>)
    ensures warnings == FolderWarnings(subset, className, imageCount)
    ensures imageCount >= FewImagesLimit <==> warnings == []
  {
    warnings := [];
    if imageCount == 0 {
      warnings := warnings + [NoImages(subset, className)];
    } else if imageCount < FewImagesLimit {
      warnings := warnings + [FewImages(subset, className, imageCount)];
    }
  }

  // ----- Lemmas: issues -----

  lemma {:induction false} ClassIssuesEmptyIff(t: Tree, s: string, classes: seq<string>)
    ensures ClassIssues(t, s, classes) == [] <==> forall c :: c in classes ==> ClassExists(t, s, c)
  {
    if |classes| > 0 {
      var n := |classes| - 1;
      ClassIssuesEmptyIff(t, s, classes[..n]);
      assert classes == classes[..n] + [classes[n]];
    }
  }

  /** The first pass reports no issue exactly when no folder is missing. */
  lemma {:induction false} IssuesEmptyIffComplete(t: Tree, subsets: seq<string>, classes: seq<string>)
    ensures GridIssues(t, subsets, classes) == [] <==> Complete(t, subsets, classes)
  {
    if |subsets| > 0 {
      var n := |subsets| - 1;
      IssuesEmptyIffComplete(t, subsets[..n], classes);
      ClassIssuesEmptyIff(t, subsets[n], classes);
      assert subsets == subsets[..n] + [subsets[n]];
    }
  }

  lemma {:induction false} ClassIssuesMembers(t: Tree, s: string, classes: seq<string>, x: Issue)
    ensures x in ClassIssues(t, s, classes) <==>
              x.MissingClass? && x.subset == s && x.className in classes && !ClassExists(t, s, x.className)
  {
    if |classes| > 0 {
      var n := |classes| - 1;
      ClassIssuesMembers(t, s, classes[..n], x);
      assert classes == classes[..n] + [classes[n]];
    }
  }

  /** A subset is reported missing exactly when it is configured and its
      folder does not exist; a class is reported missing exactly when it is
      configured, its subset exists and its folder does not. */
  lemma {:induction false} IssuesNameMissingFolders(t: Tree, subsets: seq<string>, classes: seq<string>, x: Issue)
    ensures x.MissingSubset? ==>
              (x in GridIssues(t, subsets, classes) <==> x.subset in subsets && x.subset !in t.dirs)
    ensures x.MissingClass? ==>
              (x in GridIssues(t, subsets, classes) <==>
                 x.subset in subsets && x.subset in t.dirs && x.className in classes && x.className !in t.dirs[x.subset])
  {
    if |subsets| > 0 {
      var n := |subsets| - 1;
      IssuesNameMissingFolders(t, subsets[..n], classes, x);
      ClassIssuesMembers(t, subsets[n], classes, x);
      assert subsets == subsets[..n] + [subsets[n]];
    }
  }

  lemma DistinctConcat<T>(a: seq<T>, b: seq<T>)
    requires Distinct(a) && Distinct(b)
    requires forall x :: x in a ==> x !in b
    ensures Distinct(a + b)
  {
    forall i, j | 0 <= i < j < |a + b| ensures (a + b)[i] != (a + b)[j] {
      if j >= |a| && i < |a| {
        assert (a + b)[i] in a && (a + b)[j] in b;
      }
    }
  }

  lemma {:induction false} ClassIssuesDistinct(t: Tree, s: string, classes: seq<string>)
    requires Distinct(classes)
    ensures Distinct(ClassIssues(t, s, classes))
  {
    if |classes| > 0 {
      var n := |classes| - 1;
      var c := classes[n];
      ClassIssuesDistinct(t, s, classes[..n]);
      forall x | x in ClassIssues(t, s, classes[..n])
        ensures x !in (if ClassExists(t, s, c) then [] else [MissingClass(s, c)])
      {
        ClassIssuesMembers(t, s, classes[..n], x);
      }
      DistinctConcat(ClassIssues(t, s, classes[..n]), if ClassExists(t, s, c) then [] else [MissingClass(s, c)]);
    }
  }

  lemma IssueNamesSubset(t: Tree, subsets: seq<string>, classes: seq<string>, x: Issue)
    requires x in GridIssues(t, subsets, classes)
    ensures x.subset in subsets
  {
    IssuesNameMissingFolders(t, subsets, classes, x);
  }

  /** With distinct configured names, no issue is reported twice: one issue
      per missing folder. */
  lemma {:induction false} IssuesDistinct(t: Tree, subsets: seq<string>, classes: seq<string>)
    requires Distinct(subsets) && Distinct(classes)
    ensures Distinct(GridIssues(t, subsets, classes))
  {
    if |subsets| > 0 {
      var n := |subsets| - 1;
      var s := subsets[n];
      var last := if s in t.dirs then ClassIssues(t, s, classes) else [MissingSubset(s)];
      IssuesDistinct(t, subsets[..n], classes);
      if s in t.dirs {
        ClassIssuesDistinct(t, s, classes);
      }
      forall x | x in GridIssues(t, subsets[..n], classes) ensures x !in last {
        IssueNamesSubset(t, subsets[..n], classes, x);
        if s in t.dirs && x in last {
          ClassIssuesMembers(t, s, classes, x);
        }
      }
      DistinctConcat(GridIssues(t, subsets[..n], classes), last);
    }
  }

  // ----- Lemmas: folder warnings -----

  lemma {:induction false} ClassWarningsMembers(t: Tree, s: string, classes: seq<string>, w: Warning)
    ensures w in ClassWarnings(t, s, classes) <==>
              && (w.NoImages? || w.FewImages?)
              && w.subset == s && w.className in classes && ClassExists(t, s, w.className)
              && w in FolderWarnings(s, w.className, ClassCount(t, s, w.className))
  {
    if |classes| > 0 {
      var n := |classes| - 1;
      ClassWarningsMembers(t, s, classes[..n], w);
      assert classes == classes[..n] + [classes[n]];
    }
  }

  /** The first pass warns only about existing, configured class folders:
      "no image" exactly at a count of 0, "very few" exactly at a count of
      1 to 9, with that count, and nothing at 10 or more. */
  lemma {:induction false} FolderWarningsExact(t: Tree, subsets: seq<string>, classes: seq<string>, w: Warning)
    ensures w in GridWarnings(t, subsets, classes) ==> w.NoImages? || w.FewImages?
    ensures w.NoImages? ==>
              (w in GridWarnings(t, subsets, classes) <==>
                 w.subset in subsets && w.className in classes && ClassExists(t, w.subset, w.className)
                 && ClassCount(t, w.subset, w.className) == 0)
    ensures w.FewImages? ==>
              (w in GridWarnings(t, subsets, classes) <==>
                 w.subset in subsets && w.className in classes && ClassExists(t, w.subset, w.className)
                 && w.count == ClassCount(t, w.subset, w.className) && 1 <= w.count <= 9)
  {
    if |subsets| > 0 {
      var n := |subsets| - 1;
      FolderWarningsExact(t, subsets[..n], classes, w);
      ClassWarningsMembers(t, subsets[n], classes, w);
      assert subsets == subsets[..n] + [subsets[n]];
    }
  }

  // ----- Lemmas: the two rules -----

  /** The imbalance test on reals agrees with an integer test: the larger
      count is more than twice the smaller. */
  lemma RatioAboveLimit(a: nat, b: nat)
    requires a > 0 && b > 0
    ensures Ratio(a, b) > ImbalanceLimit <==> Max(a, b) > 2 * Min(a, b)
  {
    QuotientAbove(Ratio(a, b), Min(a, b) as real, Max(a, b) as real, 2.0);
  }

  /** The count of class `c` in `train` that the rules read: 0 when the class is not configured. */
  function TrainCount(t: Tree, cfg: Config, c: string): nat
  {
    if c in cfg.classes then ClassCount(t, "train", c) else 0
  }

  /** The imbalance warning is raised exactly when `train` is configured and
      exists, both classes have images there, and one has more than twice
      the images of the other. */
  lemma ImbalanceRule(t: Tree, cfg: Config)
    ensures Imbalanced(StatsOf(t, cfg)) <==>
              && "train" in cfg.subsets && "train" in t.dirs
              && TrainCount(t, cfg, "NORMAL") > 0 && TrainCount(t, cfg, "PNEUMONIA") > 0
              && Max(TrainCount(t, cfg, "NORMAL"), TrainCount(t, cfg, "PNEUMONIA"))
                   > 2 * Min(TrainCount(t, cfg, "NORMAL"), TrainCount(t, cfg, "PNEUMONIA"))
  {
    var st := StatsOf(t, cfg);
    if "train" in st.subsets {
      assert Recorded(st, "train", "NORMAL") == TrainCount(t, cfg, "NORMAL");
      assert Recorded(st, "train", "PNEUMONIA") == TrainCount(t, cfg, "PNEUMONIA");
    }
  }

  /** The small-validation warning is raised exactly when `val` is
      configured and exists and holds fewer than 100 images. */
  lemma SmallValidationRule(t: Tree, cfg: Config)
    ensures SmallValidationSet(StatsOf(t, cfg)) <==>
              "val" in cfg.subsets && "val" in t.dirs && SubsetTotal(t, "val", cfg.classes) < 100
  {
  }

  /** The recommendations come from the two rules only, one per rule
      warning: at most two, each exactly when its warning is present. */
  lemma RecommendationsFollowRules(t: Tree, cfg: Config)
    ensures var r := Validation(t, cfg);
            && |r.recommendations| <= 2
            && (Rebalance in r.recommendations <==> exists w :: w in r.warnings && w.Imbalance?)
            && (Redistribute in r.recommendations <==> exists w :: w in r.warnings && w.SmallValidation?)
  {
    var st := StatsOf(t, cfg);
    var grid := GridWarnings(t, cfg.subsets, cfg.classes);
    GridWarningsArePerFolder(t, cfg.subsets, cfg.classes);
    RuleWarningsMatchRecommendations(st);
    var warnings := grid + RuleWarnings(st);
    forall w ensures w in warnings <==> w in grid || w in RuleWarnings(st) {
    }
  }

  /** The first pass only warns about folders. */
  lemma GridWarningsArePerFolder(t: Tree, subsets: seq<string>, classes: seq<string>)
    ensures forall w :: w in GridWarnings(t, subsets, classes) ==> w.NoImages? || w.FewImages?
  {
    forall w | w in GridWarnings(t, subsets, classes) ensures w.NoImages? || w.FewImages? {
      FolderWarningsExact(t, subsets, classes, w);
    }
  }

  /** Each rule adds one warning and its recommendation. */
  lemma RuleWarningsMatchRecommendations(st: Stats)
    ensures |RuleRecommendations(st)| <= 2
    ensures Rebalance in RuleRecommendations(st) <==> exists w :: w in RuleWarnings(st) && w.Imbalance?
    ensures Redistribute in RuleRecommendations(st) <==> exists w :: w in RuleWarnings(st) && w.SmallValidation?
  {
    var ws := RuleWarnings(st);
    if Imbalanced(st) {
      assert ws[0].Imbalance?;
    }
    if SmallValidationSet(st) {
      assert ws[|ws| - 1].SmallValidation?;
    }
  }

  // ----- Lemmas: worked examples -----

  /** 1000 normal against 2900 pneumonia images is an imbalance (ratio
      2.9); 1900 and exactly 2000 are not. */
  lemma ImbalanceThresholds()
    ensures Ratio(1000, 2900) == 2.9 && Ratio(1000, 2900) > ImbalanceLimit
    ensures !(Ratio(1000, 1900) > ImbalanceLimit)
    ensures Ratio(1000, 2000) == ImbalanceLimit
  {
    RatioAboveLimit(1000, 1900);
  }

  /** A validation split of 99 images is too small and one of 100 is not. */
  lemma SmallValidationBoundary(st99: Stats, st100: Stats)
    requires "val" in st99.subsets && st99.subsets["val"].total == 99
    requires "val" in st100.subsets && st100.subsets["val"].total == 100
    ensures SmallValidationSet(st99) && !SmallValidationSet(st100)
    ensures RuleRecommendations(st99)[|RuleRecommendations(st99)| - 1] == Redistribute
    ensures Redistribute !in RuleRecommendations(st100)
  {
  }

  /** A dataset holding only `train`, with 5 normal and 20 pneumonia
      images: both missing subsets are issues, in configuration order, and
      the structure is invalid; the small class and the 4:1 imbalance are
      warnings, and rebalancing is the one recommendation. */
  lemma TrainOnlyScenario(t: Tree, normal: seq<string>, pneumonia: seq<string>)
    requires t == Tree(map["train" := map["NORMAL" := normal, "PNEUMONIA" := pneumonia]])
    requires CountImages(Some(normal)) == 5 && CountImages(Some(pneumonia)) == 20
    ensures Validation(t, Default) == ValidationResult(
              false,
              [MissingSubset("test"), MissingSubset("val")],
              [FewImages("train", "NORMAL", 5), Imbalance(4.0)],
              [Rebalance])
  {
    TrainOnlyGrid(t, normal, pneumonia);
    TrainOnlyRules(t, normal, pneumonia);
    assert !Complete(t, Default.subsets, Default.classes) by {
      assert "test" in Default.subsets;
    }
  }

  lemma TrainOnlyClasses(t: Tree, normal: seq<string>, pneumonia: seq<string>)
    requires t == Tree(map["train" := map["NORMAL" := normal, "PNEUMONIA" := pneumonia]])
    requires CountImages(Some(normal)) == 5 && CountImages(Some(pneumonia)) == 20
    ensures ClassCount(t, "train", "NORMAL") == 5 && ClassCount(t, "train", "PNEUMONIA") == 20
    ensures ClassIssues(t, "train", Default.classes) == []
    ensures ClassWarnings(t, "train", Default.classes) == [FewImages("train", "NORMAL", 5)]
  {
    var cls := Default.classes;
    assert cls[..1] == ["NORMAL"] && cls[..0] == [];
    assert ClassExists(t, "train", "NORMAL") && ClassExists(t, "train", "PNEUMONIA");
    assert ClassIssues(t, "train", cls[..1]) == [];
    assert Listing(t, "train", "NORMAL") == Some(normal) && Listing(t, "train", "PNEUMONIA") == Some(pneumonia);
    assert ClassWarnings(t, "train", cls[..1]) == [FewImages("train", "NORMAL", 5)];
    assert ClassWarnings(t, "train", cls) == [FewImages("train", "NORMAL", 5)] + [];
  }

  lemma TrainOnlyGrid(t: Tree, normal: seq<string>, pneumonia: seq<string>)
    requires t == Tree(map["train" := map["NORMAL" := normal, "PNEUMONIA" := pneumonia]])
    requires CountImages(Some(normal)) == 5 && CountImages(Some(pneumonia)) == 20
    ensures GridIssues(t, Default.subsets, Default.classes) == [MissingSubset("test"), MissingSubset("val")]
    ensures GridWarnings(t, Default.subsets, Default.classes) == [FewImages("train", "NORMAL", 5)]
  {
    TrainOnlyClasses(t, normal, pneumonia);
    TrainOnlyIssues(t, ClassIssues(t, "train", Default.classes));
    TrainOnlyWarnings(t, ClassWarnings(t, "train", Default.classes));
  }

  lemma TrainOnlyIssues(t: Tree, trainIssues: seq<Issue>)
    requires t.dirs.Keys == {"train"}
    requires trainIssues == ClassIssues(t, "train", Default.classes)
    ensures GridIssues(t, Default.subsets, Default.classes) == trainIssues + [MissingSubset("test"), MissingSubset("val")]
  {
    var sub := Default.subsets;
    assert sub[..2] == ["train", "test"] && sub[..1] == ["train"] && sub[..0] == [];
    assert GridIssues(t, sub[..1], Default.classes) == [] + trainIssues;
    assert GridIssues(t, sub[..2], Default.classes) == trainIssues + [MissingSubset("test")];
  }

  lemma TrainOnlyWarnings(t: Tree, trainWarnings: seq<Warning>)
    requires t.dirs.Keys == {"train"}
    requires trainWarnings == ClassWarnings(t, "train", Default.classes)
    ensures GridWarnings(t, Default.subsets, Default.classes) == trainWarnings
  {
    var sub := Default.subsets;
    assert sub[..2] == ["train", "test"] && sub[..1] == ["train"] && sub[..0] == [];
    assert GridWarnings(t, sub[..1], Default.classes) == [] + trainWarnings;
    assert GridWarnings(t, sub[..2], Default.classes) == trainWarnings + [];
    assert GridWarnings(t, sub, Default.classes) == trainWarnings + [];
  }

  lemma TrainOnlyRules(t: Tree, normal: seq<string>, pneumonia: seq<string>)
    requires t == Tree(map["train" := map["NORMAL" := normal, "PNEUMONIA" := pneumonia]])
    requires CountImages(Some(normal)) == 5 && CountImages(Some(pneumonia)) == 20
    ensures RuleWarnings(StatsOf(t, Default)) == [Imbalance(4.0)]
    ensures RuleRecommendations(StatsOf(t, Default)) == [Rebalance]
  {
    TrainOnlyClasses(t, normal, pneumonia);
    var st := StatsOf(t, Default);
    assert "train" in Default.subsets && "train" in t.dirs;
    assert "train" in st.subsets && "val" !in st.subsets;
    var entry := st.subsets["train"];
    assert entry == SubsetStatsOf(t, "train", Default.classes);
    assert "NORMAL" in Default.classes && "PNEUMONIA" in Default.classes;
    assert entry.counts["NORMAL"] == 5 && entry.counts["PNEUMONIA"] == 20;
    RulesOfFiveAndTwenty(st);
  }

  lemma RulesOfFiveAndTwenty(st: Stats)
    requires "train" in st.subsets && "val" !in st.subsets
    requires Recorded(st, "train", "NORMAL") == 5 && Recorded(st, "train", "PNEUMONIA") == 20
    ensures RuleWarnings(st) == [Imbalance(4.0)]
    ensures RuleRecommendations(st) == [Rebalance]
  {
    assert Ratio(5, 20) == 4.0;
  }
}
