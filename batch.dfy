/** One upload batch: every image file is analysed, all analyses are awaited
    together, and the records of the image files are kept in input order. */
module Batch {
  import opened Wrappers
  import opened Text
  import opened Records
  import opened Subsequences

  /** Media types that are analysed start with this prefix. */
  const ImageTypePrefix := "image/"

  predicate IsImageFile(f: File)
  {
    StartsWith(f.mediaType, ImageTypePrefix)
  }

  /** What the callback of the `map` over the files resolves to: `undefined`
      for a file that is not an image, otherwise the analysis of the file. */
  datatype Pending = Undefined | Awaiting(analysis: Analysis)

  /** The value a non-rejected promise settles with. */
  function Settled(p: Pending): (r: Option<ImageRecord>)
    requires p != Awaiting(Failed)
    ensures r.None? <==> p.Undefined?
    ensures r.Some? ==> p.analysis == Analysed(r.value)
  {
    if p.Undefined? then None else Some(p.analysis.record)
  }

  /** `Array.from(files).map(...)`: one pending result per file, image or not. */
  function StartAll(files: seq<File>, analyze: Analyzer): (r: seq<Pending>)
    ensures |r| == |files|
    ensures forall i :: 0 <= i < |files| ==> (r[i].Awaiting? <==> IsImageFile(files[i]))
  {
    seq(|files|, i requires 0 <= i < |files| =>
      if IsImageFile(files[i]) then Awaiting(analyze(files[i])) else Undefined)
  }

  /** `Promise.all`: rejects when any one result rejects; otherwise yields
      every settled value at the index of its promise. */
  function AwaitAll(ps: seq<Pending>): (r: Option<seq<Option<ImageRecord>>>)
    ensures r.None? <==> exists i :: 0 <= i < |ps| && ps[i] == Awaiting(Failed)
    ensures r.Some? ==> |r.value| == |ps|
    ensures r.Some? ==> forall i :: 0 <= i < |ps| ==> ps[i] != Awaiting(Failed) && r.value[i] == Settled(ps[i])
    decreases |ps|
  {
    if ps == [] then Some([])
    else if ps[0] == Awaiting(Failed) then None
    else
      match AwaitAll(ps[1..])
      case None => None
      case Some(vs) => Some([Settled(ps[0])] + vs)
  }

  /** `filter(Boolean)`: drops the `undefined` entries, keeping the order of the rest. */
  function Compact(vs: seq<Option<ImageRecord>>): (r: seq<ImageRecord>)
    ensures forall x :: x in r <==> Some(x) in vs
    ensures |r| <= |vs|
    decreases |vs|
  {
    if vs == [] then []
    else if vs[0].Some? then [vs[0].value] + Compact(vs[1..])
    else Compact(vs[1..])
  }

  /** The records a batch contributes, or None when the batch fails: it fails
      exactly when the analysis of one of its image files fails. */
  function NewImages(files: seq<File>, analyze: Analyzer): (r: Option<seq<ImageRecord>>)
    ensures r.None? <==> exists f :: f in ImageFiles(files) && analyze(f) == Failed
  {
    match AwaitAll(StartAll(files, analyze))
    case None => None
    case Some(vs) => Some(Compact(vs))
  }

  /** The files of a batch that are sent for analysis, in input order. */
  function ImageFiles(files: seq<File>): (r: seq<File>)
    ensures IsSubsequence(r, files)
    ensures forall f :: f in r <==> f in files && IsImageFile(f)
    decreases |files|
  {
    if files == [] then []
    else if IsImageFile(files[0]) then [files[0]] + ImageFiles(files[1..])
    else ImageFiles(files[1..])
  }

  /** Every image file is sent as often as it occurs in the batch, and no other file is sent. */
  lemma {:induction false} ImageFilesCounts(files: seq<File>, f: File)
    ensures multiset(ImageFiles(files))[f] == if IsImageFile(f) then multiset(files)[f] else 0
    decreases |files|
  {
    if files != [] {
      ImageFilesCounts(files[1..], f);
      assert files == [files[0]] + files[1..];
    }
  }

  /** A batch of image files only is sent for analysis as it is. */
  lemma {:induction false} ImageFilesOfImages(files: seq<File>)
    requires forall f :: f in files ==> IsImageFile(f)
    ensures ImageFiles(files) == files
    decreases |files|
  {
    if files != [] {
      ImageFilesOfImages(files[1..]);
    }
  }

  lemma StartAllTail(files: seq<File>, analyze: Analyzer)
    requires files != []
    ensures StartAll(files, analyze)[1..] == StartAll(files[1..], analyze)
  {
  }

  /** `filter(Boolean)` works entry by entry: what survives of a concatenation
      is what survives of each part, in the same order. */
  lemma {:induction false} CompactAppend(a: seq<Option<ImageRecord>>, b: seq<Option<ImageRecord>>)
    ensures Compact(a + b) == Compact(a) + Compact(b)
    decreases |a|
  {
    if a == [] {
      assert a + b == b;
    } else {
      assert (a + b)[0] == a[0];
      assert (a + b)[1..] == a[1..] + b;
      CompactAppend(a[1..], b);
    }
  }

  /** Every present record survives as often as it occurs. */
  lemma {:induction false} CompactCounts(vs: seq<Option<ImageRecord>>, x: ImageRecord)
    ensures multiset(Compact(vs))[x] == multiset(vs)[Some(x)]
    decreases |vs|
  {
    if vs != [] {
      CompactCounts(vs[1..], x);
      assert vs == [vs[0]] + vs[1..];
    }
  }

  /** One entry: a present record survives, `undefined` does not. */
  lemma CompactOne(v: Option<ImageRecord>)
    ensures Compact([v]) == if v.Some? then [v.value] else []
  {
    assert [v][1..] == [];
  }

  /** Peeling the first file off a successful batch. */
  lemma NewImagesCons(files: seq<File>, analyze: Analyzer)
    requires files != [] && NewImages(files, analyze).Some?
    ensures NewImages(files[1..], analyze).Some?
    ensures IsImageFile(files[0]) ==> analyze(files[0]).Analysed?
    ensures NewImages(files, analyze).value ==
              (if IsImageFile(files[0]) then [analyze(files[0]).record] else []) +
              NewImages(files[1..], analyze).value
  {
    var ps := StartAll(files, analyze);
    StartAllTail(files, analyze);
    var p := ps[0];
    assert p != Awaiting(Failed);
    var tail := AwaitAll(ps[1..]);
    assert tail.Some?;
    var vs := tail.value;
    assert AwaitAll(ps) == Some([Settled(p)] + vs);
    assert Compact([Settled(p)] + vs) == (if Settled(p).Some? then [Settled(p).value] else []) + Compact(vs);
  }

  /** A batch that succeeds contributes one record per image file, the
      analysis of that file, in input order. */
  lemma {:induction false} NewImagesRecords(files: seq<File>, analyze: Analyzer)
    requires NewImages(files, analyze).Some?
    ensures |NewImages(files, analyze).value| == |ImageFiles(files)|
    ensures forall i :: 0 <= i < |ImageFiles(files)| ==>
              analyze(ImageFiles(files)[i]).Analysed? &&
              NewImages(files, analyze).value[i] == analyze(ImageFiles(files)[i]).record
    decreases |files|
  {
    if files != [] {
      var rest := files[1..];
      NewImagesCons(files, analyze);
      NewImagesRecords(rest, analyze);
      var added, tail := NewImages(files, analyze).value, NewImages(rest, analyze).value;
      var imgs, restImgs := ImageFiles(files), ImageFiles(rest);
      if IsImageFile(files[0]) {
        assert imgs == [files[0]] + restImgs;
        assert added == [analyze(files[0]).record] + tail;
        forall i | 0 <= i < |imgs|
          ensures analyze(imgs[i]).Analysed? && added[i] == analyze(imgs[i]).record
        {
          if i > 0 {
            assert imgs[i] == restImgs[i - 1] && added[i] == tail[i - 1];
          }
        }
      } else {
        assert imgs == restImgs && added == tail;
      }
    }
  }

  /** Files that are not images contribute nothing: the batch behaves as the
      batch of its image files alone. */
  lemma NonImageFilesIgnored(files: seq<File>, analyze: Analyzer)
    ensures NewImages(files, analyze) == NewImages(ImageFiles(files), analyze)
  {
    var imgs := ImageFiles(files);
    ImageFilesOfImages(imgs);
    if NewImages(files, analyze).Some? {
      NewImagesRecords(files, analyze);
      NewImagesRecords(imgs, analyze);
      assert NewImages(files, analyze).value == NewImages(imgs, analyze).value;
    }
  }
}
