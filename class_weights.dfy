/** Inverse-frequency class weights: each class's images are summed over the
    subsets the statistics structure holds, and class i gets the weight
    total / (number of classes * count of i), or 1 when it has no images. */
module ClassWeights {
  import opened Layout
  import opened Statistics
  import opened RealArith

  /** The images of class `c` recorded over `subsets`; a subset without an
      entry, or an entry without the class, contributes nothing. */
  function ClassTotal(st: Stats, subsets: seq<string>, c: string): nat
  {
    if |subsets| == 0 then 0
    else ClassTotal(st, subsets[..|subsets| - 1], c) + Recorded(st, subsets[|subsets| - 1], c)
  }

  /** The sum of the class totals of `classes`. */
  function SampleTotal(st: Stats, subsets: seq<string>, classes: seq<string>): nat
  {
    if |classes| == 0 then 0
    else SampleTotal(st, subsets, classes[..|classes| - 1]) + ClassTotal(st, subsets, classes[|classes| - 1])
  }

  function Count(st: Stats, cfg: Config, i: nat): nat
    requires i < |cfg.classes|
  {
    ClassTotal(st, cfg.subsets, cfg.classes[i])
  }

  function TotalSamples(st: Stats, cfg: Config): nat
  {
    SampleTotal(st, cfg.subsets, cfg.classes)
  }

  /** The weight of class index `i`: scaled by its count and the number of
      classes it gives back the total number of samples; a class without
      samples weighs 1. */
  function Weight(st: Stats, cfg: Config, i: nat): (w: real)
    requires i < |cfg.classes|
    ensures w >= 0.0
    ensures Count(st, cfg, i) == 0 ==> w == 1.0
    ensures Count(st, cfg, i) > 0 ==>
              w * ((|cfg.classes| * Count(st, cfg, i)) as real) == TotalSamples(st, cfg) as real
  {
    var n := Count(st, cfg, i);
    if n > 0 then TotalSamples(st, cfg) as real / ((|cfg.classes| * n) as real) else 1.0
  }

  /** Sums each class's counts over the subsets present, then computes the
      weights keyed by class index. */
  method CalculateClassWeights(st: Stats, cfg: Config) returns (weights: map<nat, real>)
    requires Distinct(cfg.classes)
    ensures forall i: nat :: i in weights <==> i < |cfg.classes|
    ensures forall i: nat :: i < |cfg.classes| ==> weights[i] == Weight(st, cfg, i)
  {
    var classCounts := CountPerClass(st, cfg);
    var totalSamples := SumClassCounts(st, cfg, classCounts);
    var n := |cfg.classes|;
    weights := map[];
    var i: nat := 0;
    while i < n
      invariant i <= n
      invariant forall m: nat :: m in weights <==> m < i
      invariant forall m: nat :: m < i ==> weights[m] == Weight(st, cfg, m)
    {
      var c := cfg.classes[i];
      if classCounts[c] > 0 {
        weights := weights[i := totalSamples as real / ((n * classCounts[c]) as real)];
      } else {
        weights := weights[i := 1.0];
      }
      i := i + 1;
    }
  }

  /** The first loop: per-class totals over the subsets present. */
  method CountPerClass(st: Stats, cfg: Config) returns (classCounts: map<string, nat>)
    requires Distinct(cfg.classes)
    ensures forall c :: c in classCounts <==> c in cfg.classes
    ensures forall c :: c in cfg.classes ==> classCounts[c] == ClassTotal(st, cfg.subsets, c)
  {
    classCounts := map c | c in cfg.classes :: 0;
    var k := 0;
    while k < |cfg.subsets|
      invariant 0 <= k <= |cfg.subsets|
      invariant forall c :: c in classCounts <==> c in cfg.classes
      invariant forall c :: c in cfg.classes ==> classCounts[c] == ClassTotal(st, cfg.subsets[..k], c)
    {
      var subset := cfg.subsets[k];
      assert cfg.subsets[..k + 1][..k] == cfg.subsets[..k];
      if subset in st.subsets {
        classCounts := AddSubset(st, cfg, k, classCounts);
      }
      k := k + 1;
    }
    assert cfg.subsets[..k] == cfg.subsets;
  }

  /** The sum of the per-class totals (every class is a key exactly once). */
  method SumClassCounts(st: Stats, cfg: Config, classCounts: map<string, nat>) returns (totalSamples: nat)
    requires forall c :: c in cfg.classes ==> c in classCounts && classCounts[c] == ClassTotal(st, cfg.subsets, c)
    ensures totalSamples == TotalSamples(st, cfg)
  {
    totalSamples := 0;
    var j := 0;
    while j < |cfg.classes|
      invariant 0 <= j <= |cfg.classes|
      invariant totalSamples == SampleTotal(st, cfg.subsets, cfg.classes[..j])
    {
      assert cfg.classes[..j + 1][..j] == cfg.classes[..j];
      totalSamples := totalSamples + classCounts[cfg.classes[j]];
      j := j + 1;
    }
    assert cfg.classes[..j] == cfg.classes;
  }

  /** The inner loop for subset `cfg.subsets[k]`: adds each class count the
      subset's entry records to that class's running total. */
  method AddSubset(st: Stats, cfg: Config, k: nat, classCounts: map<string, nat>) returns (updated: map<string, nat>)
    requires Distinct(cfg.classes)
    requires k < |cfg.subsets| && cfg.subsets[k] in st.subsets
    requires forall c :: c in classCounts <==> c in cfg.classes
    requires forall c :: c in cfg.classes ==> classCounts[c] == ClassTotal(st, cfg.subsets[..k], c)
    ensures forall c :: c in updated <==> c in cfg.classes
    ensures forall c :: c in cfg.classes ==> updated[c] == ClassTotal(st, cfg.subsets[..k + 1], c)
  {
    var subset := cfg.subsets[k];
    updated := classCounts;
    var j := 0;
    while j < |cfg.classes|
      invariant 0 <= j <= |cfg.classes|
      invariant forall c :: c in updated <==> c in cfg.classes
      invariant forall m :: 0 <= m < |cfg.classes| ==>
                  updated[cfg.classes[m]] == classCounts[cfg.classes[m]] + (if m < j then Recorded(st, subset, cfg.classes[m]) else 0)
    {
      var c := cfg.classes[j];
      if c in st.subsets[subset].counts {
        updated := updated[c := updated[c] + st.subsets[subset].counts[c]];
      }
      j := j + 1;
    }
    forall c | c in cfg.classes
      ensures updated[c] == ClassTotal(st, cfg.subsets[..k + 1], c)
    {
      var m :| 0 <= m < |cfg.classes| && cfg.classes[m] == c;
      ClassTotalSnoc(st, cfg.subsets, k, c);
    }
  }

  /** One more subset adds its recorded count to a class total. */
  lemma ClassTotalSnoc(st: Stats, subsets: seq<string>, k: nat, c: string)
    requires k < |subsets|
    ensures ClassTotal(st, subsets[..k + 1], c) == ClassTotal(st, subsets[..k], c) + Recorded(st, subsets[k], c)
  {
    assert subsets[..k + 1][..k] == subsets[..k];
  }

  // ----- Lemmas -----

  /** The even share of the samples: the total over the number of classes. */
  function Share(st: Stats, cfg: Config): real
  {
    if |cfg.classes| == 0 then 0.0 else TotalSamples(st, cfg) as real / (|cfg.classes| as real)
  }

  /** Every class with samples carries the same weighted mass, the total
      divided by the number of classes. */
  lemma BalancedMass(st: Stats, cfg: Config, i: nat)
    requires i < |cfg.classes| && Count(st, cfg, i) > 0
    ensures (Count(st, cfg, i) as real) * Weight(st, cfg, i) == Share(st, cfg)
  {
    var n := Count(st, cfg, i) as real;
    var k := |cfg.classes| as real;
    var w := Weight(st, cfg, i);
    CastProduct(|cfg.classes|, Count(st, cfg, i));
    Regroup(w, k, n);
    QuotientUnique(n * w, k, TotalSamples(st, cfg) as real);
  }

  /** The sum of count times weight over the first `m` classes. */
  function WeightedMass(st: Stats, cfg: Config, m: nat): real
    requires m <= |cfg.classes|
  {
    if m == 0 then 0.0
    else WeightedMass(st, cfg, m - 1) + (Count(st, cfg, m - 1) as real) * Weight(st, cfg, m - 1)
  }

  /** `m` shares of `q`, added one by one. */
  function Shares(m: nat, q: real): real
  {
    if m == 0 then 0.0 else Shares(m - 1, q) + q
  }

  lemma {:induction false} SharesIsProduct(m: nat, q: real)
    ensures Shares(m, q) == (m as real) * q
  {
    if m > 0 {
      SharesIsProduct(m - 1, q);
      OneMoreShare((m - 1) as real, q);
    }
  }

  /** When every class has samples, weighting every sample by its class
      weight preserves the total number of samples. */
  lemma WeightedSamplesPreserveTotal(st: Stats, cfg: Config)
    requires forall i: nat :: i < |cfg.classes| ==> Count(st, cfg, i) > 0
    ensures WeightedMass(st, cfg, |cfg.classes|) == TotalSamples(st, cfg) as real
  {
    var k := |cfg.classes|;
    WeightedMassPrefix(st, cfg, k);
    SharesIsProduct(k, Share(st, cfg));
    if k > 0 {
      TimesQuotient(k as real, TotalSamples(st, cfg) as real);
    }
  }

  lemma {:induction false} WeightedMassPrefix(st: Stats, cfg: Config, m: nat)
    requires m <= |cfg.classes|
    requires forall i: nat :: i < m ==> Count(st, cfg, i) > 0
    ensures WeightedMass(st, cfg, m) == Shares(m, Share(st, cfg))
  {
    if m > 0 {
      WeightedMassPrefix(st, cfg, m - 1);
      BalancedMass(st, cfg, m - 1);
    }
  }

  /** A rarer class never weighs less than a more frequent one. */
  lemma RarerWeighsMore(st: Stats, cfg: Config, i: nat, j: nat)
    requires i < |cfg.classes| && j < |cfg.classes|
    requires 0 < Count(st, cfg, i) <= Count(st, cfg, j)
    ensures Weight(st, cfg, i) >= Weight(st, cfg, j)
  {
    InverseCounts(|cfg.classes|, Count(st, cfg, i), Count(st, cfg, j), TotalSamples(st, cfg) as real,
                  Weight(st, cfg, i), Weight(st, cfg, j));
  }

  /** A class with samples weighs more than 1 exactly when it has fewer than
      its even share of the samples. */
  lemma AboveOneIffUnderRepresented(st: Stats, cfg: Config, i: nat)
    requires i < |cfg.classes| && Count(st, cfg, i) > 0
    ensures Weight(st, cfg, i) > 1.0 <==> |cfg.classes| * Count(st, cfg, i) < TotalSamples(st, cfg)
  {
    QuotientAboveOne(|cfg.classes|, Count(st, cfg, i), TotalSamples(st, cfg), Weight(st, cfg, i));
  }

  // ----- The sample total of a consistent structure -----

  /** The sum over `subsets` of each subset's recorded class counts. */
  function RowSums(st: Stats, subsets: seq<string>, classes: seq<string>): nat
  {
    if |subsets| == 0 then 0
    else RowSums(st, subsets[..|subsets| - 1], classes) + SumCounts(st, subsets[|subsets| - 1], classes)
  }

  lemma {:induction false} RowSumsAddClass(st: Stats, subsets: seq<string>, classes: seq<string>, c: string)
    ensures RowSums(st, subsets, classes + [c]) == RowSums(st, subsets, classes) + ClassTotal(st, subsets, c)
  {
    if |subsets| > 0 {
      RowSumsAddClass(st, subsets[..|subsets| - 1], classes, c);
      assert (classes + [c])[..|classes|] == classes;
    }
  }

  /** Summing the grid by class and summing it by subset agree. */
  lemma {:induction false} SampleTotalIsRowSums(st: Stats, subsets: seq<string>, classes: seq<string>)
    ensures SampleTotal(st, subsets, classes) == RowSums(st, subsets, classes)
  {
    if |classes| == 0 {
      RowSumsNoClasses(st, subsets);
    } else {
      var n := |classes| - 1;
      SampleTotalIsRowSums(st, subsets, classes[..n]);
      RowSumsAddClass(st, subsets, classes[..n], classes[n]);
      assert classes[..n] + [classes[n]] == classes;
    }
  }

  lemma {:induction false} RowSumsNoClasses(st: Stats, subsets: seq<string>)
    ensures RowSums(st, subsets, []) == 0
  {
    if |subsets| > 0 {
      RowSumsNoClasses(st, subsets[..|subsets| - 1]);
    }
  }

  lemma {:induction false} SumCountsWithoutEntry(st: Stats, s: string, classes: seq<string>)
    requires s !in st.subsets
    ensures SumCounts(st, s, classes) == 0
  {
    if |classes| > 0 {
      SumCountsWithoutEntry(st, s, classes[..|classes| - 1]);
    }
  }

  lemma {:induction false} RowSumsOfConsistent(st: Stats, cfg: Config, subsets: seq<string>)
    requires Consistent(st, cfg)
    ensures RowSums(st, subsets, cfg.classes) == SumTotals(st, subsets)
  {
    if |subsets| > 0 {
      var s := subsets[|subsets| - 1];
      RowSumsOfConsistent(st, cfg, subsets[..|subsets| - 1]);
      if s !in st.subsets {
        SumCountsWithoutEntry(st, s, cfg.classes);
      }
    }
  }

  /** On a structure that keeps its invariant, the total the weights use is
      the dataset total. */
  lemma TotalSamplesOfConsistent(st: Stats, cfg: Config)
    requires Consistent(st, cfg)
    ensures TotalSamples(st, cfg) == st.totalDataset
  {
    SampleTotalIsRowSums(st, cfg.subsets, cfg.classes);
    RowSumsOfConsistent(st, cfg, cfg.subsets);
  }

  /** 100 NORMAL and 370 PNEUMONIA training images give the weights
      470 / 200 = 2.35 and 470 / 740. */
  lemma TwoClassExample()
    ensures var st := Stats(map["train" := SubsetStats(map["NORMAL" := 100, "PNEUMONIA" := 370], 470)], 470);
            Weight(st, Default, 0) == 2.35 && Weight(st, Default, 1) == 470.0 / 740.0
  {
    var st := Stats(map["train" := SubsetStats(map["NORMAL" := 100, "PNEUMONIA" := 370], 470)], 470);
    assert Default.subsets[..2] == ["train", "test"] && Default.subsets[..1] == ["train"];
    assert Default.classes[..1] == ["NORMAL"];
    assert ClassTotal(st, ["train"], "NORMAL") == 100;
    assert ClassTotal(st, ["train", "test"], "NORMAL") == 100;
    assert ClassTotal(st, Default.subsets, "NORMAL") == 100;
    assert ClassTotal(st, ["train"], "PNEUMONIA") == 370;
    assert ClassTotal(st, ["train", "test"], "PNEUMONIA") == 370;
    assert ClassTotal(st, Default.subsets, "PNEUMONIA") == 370;
    assert SampleTotal(st, Default.subsets, ["NORMAL"]) == 100;
    assert TotalSamples(st, Default) == 470;
  }
}
