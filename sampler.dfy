/** Sampling image properties: for every existing subset and class folder,
    the first names matching `*.jpg` and then those matching `*.jpeg`, up to
    the sample size, are opened one after the other, and each opened image
    appends its dimensions, its file size, its format and its colour mode to
    four parallel lists. A file that cannot be read is skipped. Opening and
    reading a file is an oracle saying how many of the four appends
    completed before reading failed. */
module Sampler {
  import opened Layout
  import opened ImageCounter

  /** The file `<root>/subset/className/name`. */
  datatype FileRef = FileRef(subset: string, className: string, name: string)

  /** What a readable image reports: its size in pixels, its size on disk,
      its format name and its colour mode. */
  datatype ImageInfo = ImageInfo(width: int, height: int, byteSize: nat, format: string, mode: string)

  /** The outcome of reading one file: the image's properties, and how many
      of the four appends (dimensions, file size, format, colour mode) ran
      before reading failed; 4 or more means the file was read in full. */
  datatype Probe = Probe(info: ImageInfo, appended: nat)

  /** The four lists the sampler builds. */
  datatype Properties = Properties(
    dimensions: seq<(int, int)>,
    fileSizes: seq<nat>,
    formats: seq<string>,
    colorModes: seq<string>)

  const NoProperties: Properties := Properties([], [], [], [])

  // ----- Choosing the sample -----

  predicate EndsWith(name: string, ext: string)
  {
    |ext| <= |name| && name[|name| - |ext|..] == ext
  }

  /** A name the pattern `*.jpg` matches; the match is case-sensitive. No
      such name matches `*.jpeg`, and each one except the hidden name
      `.jpg` is counted as an image. */
  function IsJpg(name: string): (r: bool)
    ensures r ==> !IsJpeg(name)
    ensures r && |name| > 4 ==> IsImage(name)
  {
    if EndsWith(name, ".jpg") then
      assert name[|name| - 2] == name[|name| - 4..][2] == 'p';
      assert |name| > 4 ==> LastDotAt(name, |name| - 4) && Lower(name[|name| - 4..]) == ".jpg";
      true
    else false
  }

  /** A name the pattern `*.jpeg` matches; the match is case-sensitive.
      Each one except the hidden name `.jpeg` is counted as an image. */
  function IsJpeg(name: string): (r: bool)
    ensures r && |name| > 5 ==> IsImage(name)
  {
    if EndsWith(name, ".jpeg") then
      assert |name| > 5 ==> LastDotAt(name, |name| - 5) && Lower(name[|name| - 5..]) == ".jpeg";
      true
    else false
  }

  /** The names globbed in one folder: the `*.jpg` matches in listing order,
      followed by the `*.jpeg` matches in listing order. */
  function Globbed(entries: seq<string>): (r: seq<string>)
    ensures |r| <= |entries|
  {
    NoNameMatchesBoth();
    FilterDisjointSum(IsJpg, IsJpeg, entries);
    Filter(IsJpg, entries) + Filter(IsJpeg, entries)
  }

  /** The slice `xs[:k]`: the first `k` elements when `k` is not negative,
      and all but the last `-k` elements when it is. */
  function Take<T>(xs: seq<T>, k: int): (r: seq<T>)
    ensures |r| <= |xs| && r == xs[..|r|]
    ensures k >= 0 ==> |r| == Min(k, |xs|)
    ensures k < 0 ==> |r| == Max(0, |xs| + k)
  {
    if k >= 0 then (if k <= |xs| then xs[..k] else xs)
    else if |xs| + k >= 0 then xs[..|xs| + k]
    else []
  }

  /** The names sampled from one folder: the globbed names cut at the
      smaller of the sample size and their number. */
  function SampleNames(entries: seq<string>, sampleSize: int): (r: seq<string>)
    ensures |r| <= |Globbed(entries)| && r == Globbed(entries)[..|r|]
    ensures sampleSize >= 0 ==> |r| == Min(sampleSize, |Globbed(entries)|)
    ensures sampleSize < 0 ==> |r| == Max(0, |Globbed(entries)| + sampleSize)
  {
    var g := Globbed(entries);
    Take(g, Min(sampleSize, |g|))
  }

  /** The files named `names` in folder `subset/className`, in order. */
  function Refs(subset: string, className: string, names: seq<string>): (r: seq<FileRef>)
    ensures |r| == |names|
    ensures forall i :: 0 <= i < |r| ==> r[i] == FileRef(subset, className, names[i])
  {
    seq(|names|, i requires 0 <= i < |names| => FileRef(subset, className, names[i]))
  }

  /** The files sampled from class folder `s/c`: none when it does not exist. */
  function PairFiles(t: Tree, s: string, c: string, sampleSize: int): (r: seq<FileRef>)
    ensures !ClassExists(t, s, c) ==> r == []
    ensures ClassExists(t, s, c) ==> |r| == |SampleNames(t.dirs[s][c], sampleSize)|
  {
    if ClassExists(t, s, c) then Refs(s, c, SampleNames(t.dirs[s][c], sampleSize)) else []
  }

  /** The files sampled from subset `s`, class by class. */
  function SubsetFiles(t: Tree, s: string, classes: seq<string>, sampleSize: int): seq<FileRef>
  {
    if |classes| == 0 then []
    else SubsetFiles(t, s, classes[..|classes| - 1], sampleSize) + PairFiles(t, s, classes[|classes| - 1], sampleSize)
  }

  /** The files sampled from every existing subset, subset by subset. */
  function SampledFiles(t: Tree, subsets: seq<string>, classes: seq<string>, sampleSize: int): seq<FileRef>
  {
    if |subsets| == 0 then []
    else
      var s := subsets[|subsets| - 1];
      SampledFiles(t, subsets[..|subsets| - 1], classes, sampleSize)
        + (if s in t.dirs then SubsetFiles(t, s, classes, sampleSize) else [])
  }

  // ----- Reading the sample -----

  /** The lists after reading one more file: the appends run in order and
      stop at the first failure, so each list grows by at most one element
      and no list grows unless the one before it did. */
  function Step(p: Properties, f: FileRef, probe: FileRef -> Probe): (q: Properties)
    ensures |q.dimensions| - |p.dimensions| >= |q.fileSizes| - |p.fileSizes|
              >= |q.formats| - |p.formats| >= |q.colorModes| - |p.colorModes| >= 0
    ensures |q.dimensions| <= |p.dimensions| + 1
    ensures probe(f).appended == 0 ==> q == p
  {
    var r := probe(f);
    var info := r.info;
    Properties(
      p.dimensions + (if r.appended >= 1 then [(info.width, info.height)] else []),
      p.fileSizes + (if r.appended >= 2 then [info.byteSize] else []),
      p.formats + (if r.appended >= 3 then [info.format] else []),
      p.colorModes + (if r.appended >= 4 then [info.mode] else []))
  }

  /** The lists after reading `files` in order, starting from `p`. */
  function CollectFrom(p: Properties, files: seq<FileRef>, probe: FileRef -> Probe): Properties
  {
    if |files| == 0 then p
    else Step(CollectFrom(p, files[..|files| - 1], probe), files[|files| - 1], probe)
  }

  /** The properties the sampler returns for tree `t`. */
  function Analysis(t: Tree, cfg: Config, sampleSize: int, probe: FileRef -> Probe): (r: Properties)
    ensures var files := SampledFiles(t, cfg.subsets, cfg.classes, sampleSize);
            && r.dimensions == Table(Reaching(files, probe, 1), probe).dimensions
            && r.fileSizes == Table(Reaching(files, probe, 2), probe).fileSizes
            && r.formats == Table(Reaching(files, probe, 3), probe).formats
            && r.colorModes == Table(Reaching(files, probe, 4), probe).colorModes
  {
    CollectFromReaching(NoProperties, SampledFiles(t, cfg.subsets, cfg.classes, sampleSize), probe);
    CollectFrom(NoProperties, SampledFiles(t, cfg.subsets, cfg.classes, sampleSize), probe)
  }

  // ----- The operation -----

  /** Walks the existing subset and class folders and reads the sample of
      each, appending to the four lists. */
  method AnalyzeImageProperties(t: Tree, cfg: Config, sampleSize: int, probe: FileRef -> Probe)
    returns (props: Properties)
    ensures props == Analysis(t, cfg, sampleSize, probe)
    ensures LengthsOrdered(props)
    ensures |props.dimensions| <= |SampledFiles(t, cfg.subsets, cfg.classes, sampleSize)|
  {
    props := NoProperties;
    var i := 0;
    while i < |cfg.subsets|
      invariant 0 <= i <= |cfg.subsets|
      invariant props == CollectFrom(NoProperties, SampledFiles(t, cfg.subsets[..i], cfg.classes, sampleSize), probe)
    {
      var subset := cfg.subsets[i];
      SampledFilesSnoc(t, cfg.subsets, cfg.classes, sampleSize, i);
      if subset in t.dirs {
        props := AnalyzeSubset(t, subset, cfg.classes, sampleSize, probe, props);
        CollectFromConcat(NoProperties, SampledFiles(t, cfg.subsets[..i], cfg.classes, sampleSize),
                          SubsetFiles(t, subset, cfg.classes, sampleSize), probe);
      } else {
        assert SampledFiles(t, cfg.subsets[..i + 1], cfg.classes, sampleSize)
            == SampledFiles(t, cfg.subsets[..i], cfg.classes, sampleSize);
      }
      i := i + 1;
    }
    assert cfg.subsets[..i] == cfg.subsets;
    AnalysisBounds(t, cfg, sampleSize, probe);
  }

  /** The loop over the class folders of one existing subset. */
  method AnalyzeSubset(t: Tree, subset: string, classes: seq<string>, sampleSize: int,
                       probe: FileRef -> Probe, props: Properties)
    returns (out: Properties)
    ensures out == CollectFrom(props, SubsetFiles(t, subset, classes, sampleSize), probe)
  {
    out := props;
    var j := 0;
    while j < |classes|
      invariant 0 <= j <= |classes|
      invariant out == CollectFrom(props, SubsetFiles(t, subset, classes[..j], sampleSize), probe)
    {
      var className := classes[j];
      assert classes[..j + 1][..j] == classes[..j];
      if ClassExists(t, subset, className) {
        var sample := SampleNames(t.dirs[subset][className], sampleSize);
        out := ProbeFiles(subset, className, sample, probe, out);
        CollectFromConcat(props, SubsetFiles(t, subset, classes[..j], sampleSize),
                          PairFiles(t, subset, className, sampleSize), probe);
      } else {
        assert SubsetFiles(t, subset, classes[..j + 1], sampleSize) == SubsetFiles(t, subset, classes[..j], sampleSize);
      }
      j := j + 1;
    }
    assert classes[..j] == classes;
  }

  /** The loop over the sampled names of one class folder: each file is read
      and its properties appended until the first failing step. */
  method ProbeFiles(subset: string, className: string, names: seq<string>,
                    probe: FileRef -> Probe, props: Properties)
    returns (out: Properties)
    ensures out == CollectFrom(props, Refs(subset, className, names), probe)
  {
    var files := Refs(subset, className, names);
    var dimensions, fileSizes, formats, colorModes := props.dimensions, props.fileSizes, props.formats, props.colorModes;
    var k := 0;
    while k < |names|
      invariant 0 <= k <= |names|
      invariant Properties(dimensions, fileSizes, formats, colorModes) == CollectFrom(props, files[..k], probe)
    {
      var file := FileRef(subset, className, names[k]);
      assert files[..k + 1][..k] == files[..k] && files[k] == file;
      var r := probe(file);
      if r.appended >= 1 {
        dimensions := dimensions + [(r.info.width, r.info.height)];
        if r.appended >= 2 {
          fileSizes := fileSizes + [r.info.byteSize];
          if r.appended >= 3 {
            formats := formats + [r.info.format];
            if r.appended >= 4 {
              colorModes := colorModes + [r.info.mode];
            }
          }
        }
      }
      k := k + 1;
    }
    assert files[..k] == files;
    out := Properties(dimensions, fileSizes, formats, colorModes);
  }

  // ----- Lemmas: unfolding one step -----

  lemma SampledFilesSnoc(t: Tree, subsets: seq<string>, classes: seq<string>, sampleSize: int, i: nat)
    requires i < |subsets|
    ensures SampledFiles(t, subsets[..i + 1], classes, sampleSize) == SampledFiles(t, subsets[..i], classes, sampleSize)
              + (if subsets[i] in t.dirs then SubsetFiles(t, subsets[i], classes, sampleSize) else [])
  {
    assert subsets[..i + 1][..i] == subsets[..i];
  }

  /** Reading two lists of files in turn is reading their concatenation. */
  lemma {:induction false} CollectFromConcat(p: Properties, a: seq<FileRef>, b: seq<FileRef>, probe: FileRef -> Probe)
    ensures CollectFrom(p, a + b, probe) == CollectFrom(CollectFrom(p, a, probe), b, probe)
  {
    if |b| == 0 {
      assert a + b == a;
    } else {
      var n := |b| - 1;
      CollectFromConcat(p, a, b[..n], probe);
      assert (a + b)[..|a + b| - 1] == a + b[..n];
    }
  }

  // ----- Lemmas: the four lists -----

  /** The list lengths are ordered: dimensions, then file sizes, then
      formats, then colour modes. */
  predicate LengthsOrdered(p: Properties)
  {
    |p.dimensions| >= |p.fileSizes| >= |p.formats| >= |p.colorModes|
  }

  /** Reading files keeps the lengths ordered, and appends at most one
      dimension per file. */
  lemma {:induction false} CollectFromBounds(p: Properties, files: seq<FileRef>, probe: FileRef -> Probe)
    requires LengthsOrdered(p)
    ensures LengthsOrdered(CollectFrom(p, files, probe))
    ensures |CollectFrom(p, files, probe).dimensions| <= |p.dimensions| + |files|
  {
    if |files| > 0 {
      CollectFromBounds(p, files[..|files| - 1], probe);
    }
  }

  /** Whatever fails, `dimensions >= file_sizes >= formats >= color_modes`,
      and no list is longer than the number of sampled files. */
  lemma AnalysisBounds(t: Tree, cfg: Config, sampleSize: int, probe: FileRef -> Probe)
    ensures LengthsOrdered(Analysis(t, cfg, sampleSize, probe))
    ensures |Analysis(t, cfg, sampleSize, probe).dimensions| <= |SampledFiles(t, cfg.subsets, cfg.classes, sampleSize)|
  {
    CollectFromBounds(NoProperties, SampledFiles(t, cfg.subsets, cfg.classes, sampleSize), probe);
  }

  /** Every file either fails before its first append or is read in full. */
  predicate NoPartialFailure(files: seq<FileRef>, probe: FileRef -> Probe)
  {
    forall i :: 0 <= i < |files| ==> probe(files[i]).appended == 0 || probe(files[i]).appended >= 4
  }

  /** The files whose read completed at least `k` of the four appends, in
      reading order; with `k == 4`, the files read in full. */
  function Reaching(files: seq<FileRef>, probe: FileRef -> Probe, k: nat): (r: seq<FileRef>)
    ensures |r| <= |files|
  {
    if |files| == 0 then []
    else
      var f := files[|files| - 1];
      Reaching(files[..|files| - 1], probe, k) + (if probe(f).appended >= k then [f] else [])
  }

  /** A file is among those reaching stage `k` exactly when it is read and
      its read reached that stage; in particular a file read in full after
      one that failed still gives a row. */
  lemma {:induction false} ReachingMembers(files: seq<FileRef>, probe: FileRef -> Probe, k: nat, f: FileRef)
    ensures f in Reaching(files, probe, k) <==> f in files && probe(f).appended >= k
  {
    if |files| > 0 {
      var n := |files| - 1;
      ReachingMembers(files[..n], probe, k, f);
      assert files == files[..n] + [files[n]];
    }
  }

  /** Row `i` of every list, for the files `fs`, all read in full. */
  function Table(fs: seq<FileRef>, probe: FileRef -> Probe): (p: Properties)
    ensures |p.dimensions| == |p.fileSizes| == |p.formats| == |p.colorModes| == |fs|
  {
    Properties(
      seq(|fs|, i requires 0 <= i < |fs| => (probe(fs[i]).info.width, probe(fs[i]).info.height)),
      seq(|fs|, i requires 0 <= i < |fs| => probe(fs[i]).info.byteSize),
      seq(|fs|, i requires 0 <= i < |fs| => probe(fs[i]).info.format),
      seq(|fs|, i requires 0 <= i < |fs| => probe(fs[i]).info.mode))
  }

  /** When no file fails after its first append, the four lists have one
      row per file read in full, in reading order, and the rows line up:
      position `i` of every list describes the same file. A file that fails
      at once is skipped. */
  lemma {:induction false} AlignedWithoutPartialFailure(files: seq<FileRef>, probe: FileRef -> Probe)
    requires NoPartialFailure(files, probe)
    ensures CollectFrom(NoProperties, files, probe) == Table(Reaching(files, probe, 4), probe)
  {
    if |files| > 0 {
      var n := |files| - 1;
      var f := files[n];
      assert NoPartialFailure(files[..n], probe) by {
        forall i | 0 <= i < n ensures probe(files[..n][i]).appended == 0 || probe(files[..n][i]).appended >= 4 {
          assert files[..n][i] == files[i];
        }
      }
      AlignedWithoutPartialFailure(files[..n], probe);
      var prev := Reaching(files[..n], probe, 4);
      if probe(f).appended >= 4 {
        TableSnoc(prev, f, probe);
      } else {
        assert probe(files[n]).appended == 0;
        assert prev + [] == prev;
      }
    }
  }

  lemma TableSnoc(fs: seq<FileRef>, f: FileRef, probe: FileRef -> Probe)
    requires probe(f).appended >= 4
    ensures Table(fs + [f], probe) == Step(Table(fs, probe), f, probe)
  {
    var a := Table(fs + [f], probe);
    var b := Step(Table(fs, probe), f, probe);
    assert a.dimensions == b.dimensions;
    assert a.fileSizes == b.fileSizes;
    assert a.formats == b.formats;
    assert a.colorModes == b.colorModes;
  }

  /** Adding a file to a table adds one row to each list. */
  lemma TableAppend(fs: seq<FileRef>, f: FileRef, probe: FileRef -> Probe)
    ensures var a := Table(fs + [f], probe);
            var b := Table(fs, probe);
            var info := probe(f).info;
            && a.dimensions == b.dimensions + [(info.width, info.height)]
            && a.fileSizes == b.fileSizes + [info.byteSize]
            && a.formats == b.formats + [info.format]
            && a.colorModes == b.colorModes + [info.mode]
  {
    var a := Table(fs + [f], probe);
    var b := Table(fs, probe);
    var info := probe(f).info;
    assert a.dimensions == b.dimensions + [(info.width, info.height)];
    assert a.fileSizes == b.fileSizes + [info.byteSize];
    assert a.formats == b.formats + [info.format];
    assert a.colorModes == b.colorModes + [info.mode];
  }

  /** One more file adds a row to the table of the files reaching stage `k`
      exactly when its read reached that stage. */
  lemma ReachingSnoc(files: seq<FileRef>, probe: FileRef -> Probe, k: nat)
    requires |files| > 0
    ensures var f := files[|files| - 1];
            var a := Table(Reaching(files, probe, k), probe);
            var b := Table(Reaching(files[..|files| - 1], probe, k), probe);
            var info := probe(f).info;
            var grows := probe(f).appended >= k;
            && a.dimensions == b.dimensions + (if grows then [(info.width, info.height)] else [])
            && a.fileSizes == b.fileSizes + (if grows then [info.byteSize] else [])
            && a.formats == b.formats + (if grows then [info.format] else [])
            && a.colorModes == b.colorModes + (if grows then [info.mode] else [])
  {
    var f := files[|files| - 1];
    var prev := Reaching(files[..|files| - 1], probe, k);
    if probe(f).appended >= k {
      TableAppend(prev, f, probe);
    } else {
      assert Reaching(files, probe, k) == prev + [];
    }
  }

  /** Whatever fails, list number `k` (dimensions, file sizes, formats,
      colour modes) receives exactly the entries of the files whose read
      completed at least `k` appends, in reading order. */
  lemma {:induction false} CollectFromReaching(p: Properties, files: seq<FileRef>, probe: FileRef -> Probe)
    ensures var q := CollectFrom(p, files, probe);
            && q.dimensions == p.dimensions + Table(Reaching(files, probe, 1), probe).dimensions
            && q.fileSizes == p.fileSizes + Table(Reaching(files, probe, 2), probe).fileSizes
            && q.formats == p.formats + Table(Reaching(files, probe, 3), probe).formats
            && q.colorModes == p.colorModes + Table(Reaching(files, probe, 4), probe).colorModes
  {
    if |files| > 0 {
      var init, f := files[..|files| - 1], files[|files| - 1];
      var info, n := probe(f).info, probe(f).appended;
      var q := CollectFrom(p, files, probe);
      assert q.dimensions == p.dimensions + Table(Reaching(files, probe, 1), probe).dimensions by {
        CollectFromReaching(p, init, probe);
        ReachingSnoc(files, probe, 1);
        ConcatAssoc(p.dimensions, Table(Reaching(init, probe, 1), probe).dimensions,
                    if n >= 1 then [(info.width, info.height)] else []);
      }
      assert q.fileSizes == p.fileSizes + Table(Reaching(files, probe, 2), probe).fileSizes by {
        CollectFromReaching(p, init, probe);
        ReachingSnoc(files, probe, 2);
        ConcatAssoc(p.fileSizes, Table(Reaching(init, probe, 2), probe).fileSizes,
                    if n >= 2 then [info.byteSize] else []);
      }
      assert q.formats == p.formats + Table(Reaching(files, probe, 3), probe).formats by {
        CollectFromReaching(p, init, probe);
        ReachingSnoc(files, probe, 3);
        ConcatAssoc(p.formats, Table(Reaching(init, probe, 3), probe).formats,
                    if n >= 3 then [info.format] else []);
      }
      assert q.colorModes == p.colorModes + Table(Reaching(files, probe, 4), probe).colorModes by {
        CollectFromReaching(p, init, probe);
        ReachingSnoc(files, probe, 4);
        ConcatAssoc(p.colorModes, Table(Reaching(init, probe, 4), probe).colorModes,
                    if n >= 4 then [info.mode] else []);
      }
    }
  }

  /** When every file reaches stage `k`, every file is in its table. */
  lemma {:induction false} ReachingAll(files: seq<FileRef>, probe: FileRef -> Probe, k: nat)
    requires forall f :: f in files ==> probe(f).appended >= k
    ensures Reaching(files, probe, k) == files
  {
    if |files| > 0 {
      var n := |files| - 1;
      assert forall f :: f in files[..n] ==> f in files;
      ReachingAll(files[..n], probe, k);
      assert files[n] in files;
      assert files == files[..n] + [files[n]];
    }
  }

  /** When every sampled file is read in full, the four lists are the table
      of all sampled files: no row is lost except by the sample size. */
  lemma NoFailureReadsAll(t: Tree, cfg: Config, sampleSize: int, probe: FileRef -> Probe)
    requires forall f :: f in SampledFiles(t, cfg.subsets, cfg.classes, sampleSize) ==> probe(f).appended >= 4
    ensures var files := SampledFiles(t, cfg.subsets, cfg.classes, sampleSize);
            Analysis(t, cfg, sampleSize, probe) == Table(files, probe)
    ensures var p := Analysis(t, cfg, sampleSize, probe);
            |p.dimensions| == |p.fileSizes| == |p.formats| == |p.colorModes|
              == |SampledFiles(t, cfg.subsets, cfg.classes, sampleSize)|
  {
    var files := SampledFiles(t, cfg.subsets, cfg.classes, sampleSize);
    ReachingAll(files, probe, 1);
    ReachingAll(files, probe, 2);
    ReachingAll(files, probe, 3);
    ReachingAll(files, probe, 4);
  }

  /** So when nothing fails part-way, all four lists have the same length. */
  lemma EqualLengthsWithoutPartialFailure(t: Tree, cfg: Config, sampleSize: int, probe: FileRef -> Probe)
    requires NoPartialFailure(SampledFiles(t, cfg.subsets, cfg.classes, sampleSize), probe)
    ensures var p := Analysis(t, cfg, sampleSize, probe);
            |p.dimensions| == |p.fileSizes| == |p.formats| == |p.colorModes|
  {
    AlignedWithoutPartialFailure(SampledFiles(t, cfg.subsets, cfg.classes, sampleSize), probe);
  }

  /** A file whose size cannot be read after its dimensions were recorded
      leaves the lists misaligned: one dimension and nothing else. */
  lemma PartialFailureMisaligns(f: FileRef, info: ImageInfo, probe: FileRef -> Probe)
    requires probe(f) == Probe(info, 1)
    ensures CollectFrom(NoProperties, [f], probe) == Properties([(info.width, info.height)], [], [], [])
  {
    assert [f][..0] == [];
  }

  // ----- Lemmas: the sample -----

  /** No name matches both patterns. */
  lemma NoNameMatchesBoth()
    ensures forall name :: IsJpg(name) ==> !IsJpeg(name)
  {
  }

  /** Every sampled name is an entry of the folder matching one of the two
      patterns, and with a sample size at least the number of matches every
      matching entry is sampled. */
  lemma SampleMembers(entries: seq<string>, sampleSize: int, x: string)
    ensures x in SampleNames(entries, sampleSize) ==> x in entries && (IsJpg(x) || IsJpeg(x))
    ensures sampleSize >= |Globbed(entries)| ==>
              (x in SampleNames(entries, sampleSize) <==> x in entries && (IsJpg(x) || IsJpeg(x)))
  {
    FilterMembers(IsJpg, entries, x);
    FilterMembers(IsJpeg, entries, x);
    var g := Globbed(entries);
    var sample := SampleNames(entries, sampleSize);
    if x in sample {
      assert x in g;
    }
    if sampleSize >= |g| {
      assert sample == g;
    }
  }

  /** The `*.jpg` matches come before the `*.jpeg` matches. */
  lemma JpgBeforeJpeg(entries: seq<string>)
    ensures var g := Globbed(entries);
            forall i, j :: 0 <= i < j < |g| && IsJpeg(g[i]) ==> IsJpeg(g[j])
  {
    var a := Filter(IsJpg, entries);
    var b := Filter(IsJpeg, entries);
    var g := Globbed(entries);
    forall i, j | 0 <= i < j < |g| && IsJpeg(g[i]) ensures IsJpeg(g[j]) {
      if i < |a| {
        assert a[i] in a && g[i] == a[i];
        FilterMembers(IsJpg, entries, a[i]);
        assert false;
      }
      FilterMembers(IsJpeg, entries, g[j]);
      assert g[j] in b;
    }
  }

  /** The counter and the sampler select differently: an upper-case
      extension is counted as an image but never sampled, and `.png` files
      are counted but never sampled. */
  lemma CountedButNotSampled()
    ensures IsImage("scan.JPG") && !IsJpg("scan.JPG") && !IsJpeg("scan.JPG")
    ensures IsImage("scan.png") && !IsJpg("scan.png") && !IsJpeg("scan.png")
  {
    LastIndexOfAt("scan.JPG", '.', 4);
    assert Suffix("scan.JPG") == ".JPG";
    assert Lower(".JPG") == ".jpg";
    LastIndexOfAt("scan.png", '.', 4);
    assert Suffix("scan.png") == ".png";
    assert Lower(".png") == ".png";
    assert "scan.JPG"[5] != "jpg"[0];
    assert "scan.png"[5] != "jpg"[0];
  }

  /** Every sampled file lies in an existing, configured class folder of a
      configured subset, and its name is in that folder's sample. */
  lemma {:induction false} SampledFilesFromPresentPairs(t: Tree, subsets: seq<string>, classes: seq<string>,
                                                       sampleSize: int, f: FileRef)
    requires f in SampledFiles(t, subsets, classes, sampleSize)
    ensures f.subset in subsets && f.className in classes && ClassExists(t, f.subset, f.className)
    ensures f.name in SampleNames(t.dirs[f.subset][f.className], sampleSize)
  {
    var n := |subsets| - 1;
    var s := subsets[n];
    if f in SampledFiles(t, subsets[..n], classes, sampleSize) {
      SampledFilesFromPresentPairs(t, subsets[..n], classes, sampleSize, f);
    } else {
      SubsetFilesFromPresentPairs(t, s, classes, sampleSize, f);
    }
  }

  lemma {:induction false} SubsetFilesFromPresentPairs(t: Tree, s: string, classes: seq<string>, sampleSize: int, f: FileRef)
    requires f in SubsetFiles(t, s, classes, sampleSize)
    ensures f.subset == s && f.className in classes && ClassExists(t, s, f.className)
    ensures f.name in SampleNames(t.dirs[s][f.className], sampleSize)
  {
    var n := |classes| - 1;
    var c := classes[n];
    if f in SubsetFiles(t, s, classes[..n], sampleSize) {
      SubsetFilesFromPresentPairs(t, s, classes[..n], sampleSize, f);
    } else {
      var files := PairFiles(t, s, c, sampleSize);
      var k :| 0 <= k < |files| && files[k] == f;
      assert classes[n] in classes;
    }
  }
}
