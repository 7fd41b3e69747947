/** Aggregating image counts over the subset-by-class grid: one count per
    class for every subset folder that exists, a total per subset, and a
    total for the whole dataset. */
module Statistics {
  import opened Layout
  import opened ImageCounter

  /** The entry of one existing subset: a count per class name and their sum. */
  datatype SubsetStats = SubsetStats(counts: map<string, nat>, total: nat)

  /** The statistics structure: one entry per existing subset (a missing
      subset has no key) and the number of images over all of them. */
  datatype Stats = Stats(subsets: map<string, SubsetStats>, totalDataset: nat)

  function ClassCount(t: Tree, s: string, c: string): nat
  {
    CountImages(Listing(t, s, c))
  }

  // ----- What the tree holds -----

  /** The images of subset `s` over `classes`, each class counted as often as it is listed. */
  function SubsetTotal(t: Tree, s: string, classes: seq<string>): nat
  {
    if |classes| == 0 then 0
    else SubsetTotal(t, s, classes[..|classes| - 1]) + ClassCount(t, s, classes[|classes| - 1])
  }

  /** The images of every existing subset among `subsets`. */
  function DatasetTotal(t: Tree, classes: seq<string>, subsets: seq<string>): nat
  {
    if |subsets| == 0 then 0
    else
      var s := subsets[|subsets| - 1];
      DatasetTotal(t, classes, subsets[..|subsets| - 1]) + (if s in t.dirs then SubsetTotal(t, s, classes) else 0)
  }

  function SubsetStatsOf(t: Tree, s: string, classes: seq<string>): SubsetStats
  {
    SubsetStats(map c | c in classes :: ClassCount(t, s, c), SubsetTotal(t, s, classes))
  }

  /** The statistics the utility builds for tree `t`. */
  function StatsOf(t: Tree, cfg: Config): (r: Stats)
    ensures forall s :: s in r.subsets <==> s in cfg.subsets && s in t.dirs
    ensures forall s, c :: s in r.subsets ==> (c in r.subsets[s].counts <==> c in cfg.classes)
    ensures forall s, c :: s in r.subsets && c in r.subsets[s].counts ==>
              r.subsets[s].counts[c] == CountImages(Listing(t, s, c))
    ensures r.totalDataset == DatasetTotal(t, cfg.classes, cfg.subsets)
  {
    Stats(map s | s in cfg.subsets && s in t.dirs :: SubsetStatsOf(t, s, cfg.classes),
          DatasetTotal(t, cfg.classes, cfg.subsets))
  }

  // ----- What a statistics value says about itself -----

  /** The count a statistics value records for class `c` of subset `s`, or 0
      when either key is absent (a lookup with default 0). */
  function Recorded(st: Stats, s: string, c: string): nat
  {
    if s in st.subsets && c in st.subsets[s].counts then st.subsets[s].counts[c] else 0
  }

  /** The sum of the recorded counts of `classes` in subset `s`. */
  function SumCounts(st: Stats, s: string, classes: seq<string>): nat
  {
    if |classes| == 0 then 0
    else SumCounts(st, s, classes[..|classes| - 1]) + Recorded(st, s, classes[|classes| - 1])
  }

  /** The sum of the recorded totals of those of `subsets` that have an entry. */
  function SumTotals(st: Stats, subsets: seq<string>): nat
  {
    if |subsets| == 0 then 0
    else
      var s := subsets[|subsets| - 1];
      SumTotals(st, subsets[..|subsets| - 1]) + (if s in st.subsets then st.subsets[s].total else 0)
  }

  /** The invariant of the statistics structure: every subset total is the
      sum of its class counts, and the dataset total is the sum of the
      subset totals. */
  predicate Consistent(st: Stats, cfg: Config)
  {
    && (forall s :: s in st.subsets ==> st.subsets[s].total == SumCounts(st, s, cfg.classes))
    && st.totalDataset == SumTotals(st, cfg.subsets)
  }

  // ----- The operation -----

  /** Walks the configured subsets and, inside each existing one, the
      configured classes, recording every count and accumulating the
      subset total and the running dataset total. */
  method GetDatasetStatistics(t: Tree, cfg: Config) returns (stats: Stats)
    ensures stats == StatsOf(t, cfg)
    ensures forall s :: s in stats.subsets <==> s in cfg.subsets && s in t.dirs
    ensures forall s, c :: s in stats.subsets ==>
              (c in stats.subsets[s].counts <==> c in cfg.classes)
    ensures forall s, c :: s in stats.subsets && c in stats.subsets[s].counts ==>
              stats.subsets[s].counts[c] == CountImages(Listing(t, s, c))
    ensures Consistent(stats, cfg)
  {
    var entries: map<string, SubsetStats> := map[];
    var totalImages := 0;
    var i := 0;
    while i < |cfg.subsets|
      invariant 0 <= i <= |cfg.subsets|
      invariant entries == map s | s in cfg.subsets[..i] && s in t.dirs :: SubsetStatsOf(t, s, cfg.classes)
      invariant totalImages == DatasetTotal(t, cfg.classes, cfg.subsets[..i])
    {
      var subset := cfg.subsets[i];
      assert cfg.subsets[..i + 1] == cfg.subsets[..i] + [subset];
      if subset in t.dirs {
        var subsetStats := CountSubset(t, subset, cfg.classes);
        entries := entries[subset := subsetStats];
        totalImages := totalImages + subsetStats.total;
      }
      i := i + 1;
    }
    assert cfg.subsets[..i] == cfg.subsets;
    stats := Stats(entries, totalImages);
    StatsOfConsistent(t, cfg);
  }

  /** The inner loop over the classes of one existing subset: records each
      class count and accumulates the subset total. */
  method CountSubset(t: Tree, subset: string, classes: seq<string>) returns (entry: SubsetStats)
    ensures entry == SubsetStatsOf(t, subset, classes)
  {
    var counts: map<string, nat> := map[];
    var subsetTotal := 0;
    var j := 0;
    while j < |classes|
      invariant 0 <= j <= |classes|
      invariant counts == map c | c in classes[..j] :: ClassCount(t, subset, c)
      invariant subsetTotal == SubsetTotal(t, subset, classes[..j])
    {
      var className := classes[j];
      assert classes[..j + 1] == classes[..j] + [className];
      var count := CountImages(Listing(t, subset, className));
      counts := counts[className := count];
      subsetTotal := subsetTotal + count;
      j := j + 1;
    }
    assert classes[..j] == classes;
    entry := SubsetStats(counts, subsetTotal);
  }

  // ----- Lemmas -----

  /** Summing the recorded counts of a subset entry built from the tree gives
      the tree's subset total. */
  lemma {:induction false} SumCountsOfTree(t: Tree, cfg: Config, s: string, classes: seq<string>)
    requires s in cfg.subsets && s in t.dirs
    requires forall c :: c in classes ==> c in cfg.classes
    ensures SumCounts(StatsOf(t, cfg), s, classes) == SubsetTotal(t, s, classes)
  {
    if |classes| > 0 {
      var n := |classes| - 1;
      assert classes[n] in classes;
      SumCountsOfTree(t, cfg, s, classes[..n]);
    }
  }

  /** Summing the recorded subset totals gives the tree's dataset total. */
  lemma {:induction false} SumTotalsOfTree(t: Tree, cfg: Config, subsets: seq<string>)
    requires forall s :: s in subsets ==> s in cfg.subsets
    ensures SumTotals(StatsOf(t, cfg), subsets) == DatasetTotal(t, cfg.classes, subsets)
  {
    if |subsets| > 0 {
      var n := |subsets| - 1;
      assert subsets[n] in subsets;
      SumTotalsOfTree(t, cfg, subsets[..n]);
    }
  }

  /** The statistics built from any tree satisfy the structure's invariant. */
  lemma StatsOfConsistent(t: Tree, cfg: Config)
    ensures Consistent(StatsOf(t, cfg), cfg)
  {
    var st := StatsOf(t, cfg);
    forall s | s in st.subsets
      ensures st.subsets[s].total == SumCounts(st, s, cfg.classes)
    {
      SumCountsOfTree(t, cfg, s, cfg.classes);
    }
    SumTotalsOfTree(t, cfg, cfg.subsets);
  }

  /** With no subset folder on disk the structure is empty and counts 0. */
  lemma {:induction false} NoSubsetsNoImages(t: Tree, cfg: Config)
    requires forall s :: s in cfg.subsets ==> s !in t.dirs
    ensures StatsOf(t, cfg).subsets == map[]
    ensures StatsOf(t, cfg).totalDataset == 0
  {
    NoSubsetsTotalZero(t, cfg.classes, cfg.subsets);
  }

  lemma {:induction false} NoSubsetsTotalZero(t: Tree, classes: seq<string>, subsets: seq<string>)
    requires forall s :: s in subsets ==> s !in t.dirs
    ensures DatasetTotal(t, classes, subsets) == 0
  {
    if |subsets| > 0 {
      var n := |subsets| - 1;
      assert subsets[n] in subsets;
      NoSubsetsTotalZero(t, classes, subsets[..n]);
    }
  }

  /** A subset whose class folders are all missing is still present, with a
      zero count for every class: absent and empty are different states. */
  lemma {:induction false} EmptySubsetRecordsZeros(t: Tree, cfg: Config, s: string)
    requires s in cfg.subsets && s in t.dirs
    requires t.dirs[s] == map[]
    ensures s in StatsOf(t, cfg).subsets
    ensures forall c :: c in cfg.classes ==> StatsOf(t, cfg).subsets[s].counts[c] == 0
    ensures StatsOf(t, cfg).subsets[s].total == 0
  {
    EmptySubsetTotalZero(t, s, cfg.classes);
  }

  lemma {:induction false} EmptySubsetTotalZero(t: Tree, s: string, classes: seq<string>)
    requires s in t.dirs && t.dirs[s] == map[]
    ensures SubsetTotal(t, s, classes) == 0
  {
    if |classes| > 0 {
      EmptySubsetTotalZero(t, s, classes[..|classes| - 1]);
    }
  }
}
