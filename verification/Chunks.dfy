/**
 Publishing a large file in chunks: it is compressed, cut into pieces, and the pieces are listed by name;
 whoever retrieves them merges them in the listed order.
 */
module Chunks {
  import opened Text

  type Files = map<string, string>

  // ---------- names in byte order ----------

  predicate Less(a: string, b: string) {
    b != "" && (a == "" || a[0] < b[0] || (a[0] == b[0] && Less(a[1..], b[1..])))
  }

  lemma {:induction false} LessTotal(a: string, b: string)
    ensures Less(a, b) || a == b || Less(b, a)
    ensures !(Less(a, b) && Less(b, a)) && !Less(a, a)
  {
    if a != "" && b != "" && a[0] == b[0] {
      LessTotal(a[1..], b[1..]);
      assert a == [a[0]] + a[1..] && b == [b[0]] + b[1..];
    }
    if a != "" {
      LessTotal(a[1..], a[1..]);
    }
  }

  lemma {:induction false} LessTransitive(a: string, b: string, c: string)
    requires Less(a, b) && Less(b, c)
    ensures Less(a, c)
  {
    if a != "" && a[0] == b[0] == c[0] {
      LessTransitive(a[1..], b[1..], c[1..]);
    }
  }

  lemma {:induction false} LessAfterPrefix(p: string, a: string, b: string)
    requires Less(a, b)
    ensures Less(p + a, p + b)
  {
    if p == "" {
      assert p + a == a && p + b == b;
    } else {
      LessAfterPrefix(p[1..], a, b);
      assert (p + a)[1..] == p[1..] + a && (p + b)[1..] == p[1..] + b;
    }
  }

  /** Bytewise order: at the first difference the smaller byte, or the end, comes first. */
  lemma {:induction false} LessMeaning(a: string, b: string)
    ensures Less(a, b) <==> exists n :: 0 <= n <= |a| && n < |b| && a[..n] == b[..n] && (n == |a| || a[n] < b[n])
  {
    if a != "" && b != "" && a[0] == b[0] {
      LessMeaning(a[1..], b[1..]);
      var a', b' := a[1..], b[1..];
      if n :| 0 <= n <= |a'| && n < |b'| && a'[..n] == b'[..n] && (n == |a'| || a'[n] < b'[n]) {
        assert a[..n + 1] == [a[0]] + a'[..n] && b[..n + 1] == [b[0]] + b'[..n];
      }
      if n :| 0 <= n <= |a| && n < |b| && a[..n] == b[..n] && (n == |a| || a[n] < b[n]) {
        assert n > 0;
        assert a'[..n - 1] == a[..n][1..] && b'[..n - 1] == b[..n][1..];
      }
    } else if b != "" && (a == "" || a[0] < b[0]) {
      assert a[..0] == b[..0];
    } else if b != "" {
      FirstDiffers(a, b);
    }
  }

  lemma FirstDiffers(a: string, b: string)
    requires a != "" && b != "" && a[0] != b[0]
    ensures forall n :: 0 < n <= |a| && n <= |b| ==> a[..n] != b[..n]
  {
    forall n | 0 < n <= |a| && n <= |b|
      ensures a[..n] != b[..n]
    {
      assert a[..n][0] == a[0] && b[..n][0] == b[0];
    }
  }

  predicate Increasing(s: seq<string>) { forall i, j :: 0 <= i < j < |s| ==> Less(s[i], s[j]) }

  lemma LastIsGreatest(s: seq<string>, x: string)
    requires Increasing(s) && x in s
    ensures x == s[|s| - 1] || Less(x, s[|s| - 1])
  {
  }

  lemma BeforeLast(s: seq<string>, x: string)
    requires Increasing(s) && s != []
    ensures x in s[..|s| - 1] <==> x in s && x != s[|s| - 1]
  {
    var n := |s| - 1;
    LessTotal(s[n], s[n]);
    assert s == s[..n] + [s[n]];
  }

  // ---------- the file system ----------

  function Read(files: Files, name: string): string { if name in files then files[name] else "" }

  function Appended(files: Files, name: string, content: string): Files { files[name := Read(files, name) + content] }

  function Merged(files: Files, output: string, inputs: seq<string>): Files {
    if inputs == [] then files
    else
      var before := Merged(files, output, inputs[..|inputs| - 1]);
      Appended(before, output, Read(before, inputs[|inputs| - 1]))
  }

  function ContentOf(files: Files, names: seq<string>): string {
    if names == [] then "" else ContentOf(files, names[..|names| - 1]) + Read(files, names[|names| - 1])
  }

  /** Merging into a file that is not among the inputs adds their contents in order, and touches nothing else. */
  lemma {:induction false} MergedContent(files: Files, output: string, inputs: seq<string>)
    requires output !in inputs
    ensures Read(Merged(files, output, inputs), output) == Read(files, output) + ContentOf(files, inputs)
    ensures forall n :: n != output ==> Read(Merged(files, output, inputs), n) == Read(files, n)
  {
    if inputs != [] {
      MergedContent(files, output, inputs[..|inputs| - 1]);
    }
  }

  /** `prefix` + `*`, where the star stands for anything but a slash. */
  predicate Matches(name: string, prefix: string) { prefix <= name && '/' !in name[|prefix|..] }

  predicate Lists(files: Files, prefix: string, names: seq<string>) {
    && Increasing(names)
    && (forall n :: n in names ==> n in files && Matches(n, prefix))
    && (forall n :: n in files && Matches(n, prefix) ==> n in names)
  }

  datatype ChunkData = ChunkData(file: string, size: nat, checksum: string)
  datatype ResultData = ResultData(file: string, size: nat, chunks: seq<ChunkData>)

  datatype Piece = Piece(suffix: string, content: string)
  datatype Split = Split(pieces: seq<Piece>, ok: bool)

  /** `gzip` is told whether its output is already there; a failing `split` may have written pieces. */
  datatype Commands = Commands(
    gzip: (string, bool) -> Option<string>, split: (string, string) -> Split, checksum: string -> string)

  datatype Failure = NoSuchFile | NoChunkSize | GzipFailed | SplitFailed

  function WithPieces(files: Files, prefix: string, pieces: seq<Piece>): Files {
    if pieces == [] then files
    else
      var last := pieces[|pieces| - 1];
      WithPieces(files, prefix, pieces[..|pieces| - 1])[prefix + last.suffix := last.content]
  }

  function Without(files: Files, name: string): Files { files - {name} }

  function ChunkOf(c: Commands, files: Files, name: string): ChunkData {
    ChunkData(name, |Read(files, name)|, if name in files then c.checksum(files[name]) else "")
  }

  function FilesOf(chunks: seq<ChunkData>): (names: seq<string>)
    ensures |names| == |chunks|
  {
    seq(|chunks|, i requires 0 <= i < |chunks| => chunks[i].file)
  }

  /** What the publication announces, and the files it leaves. */
  predicate Announced(
    c: Commands, before: Files, after: Files, file: string, chunkSize: string, removed: bool, e: ResultData)
    requires file in before && c.gzip(before[file], file + ".gz" in before).Some?
  {
    var packed := c.gzip(before[file], file + ".gz" in before).value;
    var pieces := c.split(packed, chunkSize).pieces;
    var cut := WithPieces(Without(before, file)[file + ".gz" := packed], file + ".gz.", pieces);
    && after == (if removed then Without(cut, file + ".gz") else cut)
    && e.file == file + ".gz" && e.size == |Read(cut, file + ".gz")|
    && Lists(after, file + ".gz.", FilesOf(e.chunks))
    && forall i :: 0 <= i < |e.chunks| ==> e.chunks[i] == ChunkOf(c, after, e.chunks[i].file)
  }

  /** Everything announced of a chunk is true of the file it names, which is there. */
  lemma ChunksTrue(
    c: Commands, before: Files, after: Files, file: string, chunkSize: string, removed: bool, e: ResultData)
    requires file in before && c.gzip(before[file], file + ".gz" in before).Some?
    requires Announced(c, before, after, file, chunkSize, removed, e)
    ensures forall i :: 0 <= i < |e.chunks| ==>
              && e.chunks[i].file in after
              && e.chunks[i].size == |after[e.chunks[i].file]|
              && e.chunks[i].checksum == c.checksum(after[e.chunks[i].file])
  {
    forall i | 0 <= i < |e.chunks|
      ensures e.chunks[i].file in after
    {
      assert FilesOf(e.chunks)[i] == e.chunks[i].file;
    }
  }

  function Insert(s: seq<string>, x: string): seq<string> {
    if s == [] || Less(s[|s| - 1], x) then s + [x] else Insert(s[..|s| - 1], x) + [s[|s| - 1]]
  }

  lemma {:induction false} InsertKeeps(s: seq<string>, x: string)
    requires Increasing(s) && x !in s
    ensures Increasing(Insert(s, x))
    ensures forall y :: y in Insert(s, x) <==> y in s || y == x
  {
    if s != [] {
      var n := |s| - 1;
      LessTotal(s[n], x);
      assert s == s[..n] + [s[n]];
      if Less(x, s[n]) {
        InsertKeeps(s[..n], x);
        var t := Insert(s[..n], x);
        forall i | 0 <= i < |t|
          ensures Less(t[i], s[n])
        {
          assert t[i] in t;
        }
      } else {
        forall i | 0 <= i < n
          ensures Less(s[i], x)
        {
          LessTransitive(s[i], s[n], x);
        }
      }
    }
  }

  class FileSystem {
    var files: Files
    var published: seq<ResultData>

    constructor (files: Files)
      ensures this.files == files && published == []
    {
      this.files, published := files, [];
    }

    method List(prefix: string) returns (names: seq<string>)
      ensures Lists(files, prefix, names)
    {
      var rest := set n | n in files && Matches(n, prefix);
      names := [];
      while rest != {}
        invariant Increasing(names)
        invariant forall n :: n in files && Matches(n, prefix) <==> n in rest || n in names
        invariant forall n :: n in rest ==> n !in names
      {
        var n :| n in rest;
        InsertKeeps(names, n);
        names, rest := Insert(names, n), rest - {n};
      }
    }

    method Append(name: string, content: string)
      modifies this`files
      ensures files == Appended(old(files), name, content)
    {
      files := files[name := Read(files, name) + content];
    }

    method MergeFiles(output: string, inputs: seq<string>)
      modifies this`files
      ensures files == Merged(old(files), output, inputs)
    {
      for i := 0 to |inputs|
        invariant files == Merged(old(files), output, inputs[..i])
      {
        assert inputs[..i + 1][..i] == inputs[..i];
        Append(output, Read(files, inputs[i]));
      }
      assert inputs[..|inputs|] == inputs;
    }

    /** `split` writes its pieces one after another. */
    method WritePieces(prefix: string, pieces: seq<Piece>)
      modifies this`files
      ensures files == WithPieces(old(files), prefix, pieces)
    {
      for i := 0 to |pieces|
        invariant files == WithPieces(old(files), prefix, pieces[..i])
      {
        assert pieces[..i + 1][..i] == pieces[..i];
        files := files[prefix + pieces[i].suffix := pieces[i].content];
      }
      assert pieces[..|pieces|] == pieces;
    }

    method Describe(c: Commands, names: seq<string>) returns (chunks: seq<ChunkData>)
      ensures FilesOf(chunks) == names
      ensures forall i :: 0 <= i < |chunks| ==> chunks[i] == ChunkOf(c, files, chunks[i].file)
    {
      chunks := [];
      for i := 0 to |names|
        invariant |chunks| == i && forall j :: 0 <= j < i ==> chunks[j] == ChunkOf(c, files, names[j])
      {
        chunks := chunks + [ChunkOf(c, files, names[i])];
      }
    }

    /** Compresses, splits and announces a file; `removable` says whether the compressed file can be removed. */
    method DoWithNativeGzipAndSplit(
      c: Commands, file: string, chunkSize: string, removable: bool)
      returns (err: Option<Failure>)
      modifies this
      ensures err == if file !in old(files) then Some(NoSuchFile)
                     else if IsBlank(chunkSize) then Some(NoChunkSize)
                     else var packed := c.gzip(old(files)[file], file + ".gz" in old(files));
                          if packed == None then Some(GzipFailed)
                          else if !c.split(packed.value, chunkSize).ok then Some(SplitFailed)
                          else None
      ensures err.Some? ==> published == old(published)
      ensures err in {Some(NoSuchFile), Some(NoChunkSize), Some(GzipFailed)} ==> files == old(files)
      ensures err == None ==>
                && |published| == |old(published)| + 1 && published[..|old(published)|] == old(published)
                && Announced(c, old(files), files, file, chunkSize, removable, published[|old(published)|])
    {
      if file !in files {
        return Some(NoSuchFile);
      }
      if IsBlank(chunkSize) {
        return Some(NoChunkSize);
      }
      var packed := c.gzip(files[file], file + ".gz" in files);
      if packed == None {
        return Some(GzipFailed);
      }
      files := Without(files, file)[file + ".gz" := packed.value];
      var split := c.split(packed.value, chunkSize);
      WritePieces(file + ".gz.", split.pieces);
      if !split.ok {
        return Some(SplitFailed);
      }
      var size := |Read(files, file + ".gz")|;
      if removable {
        files := Without(files, file + ".gz");
      }
      var names := List(file + ".gz.");
      var chunks := Describe(c, names);
      published := published + [ResultData(file + ".gz", size, chunks)];
      err := None;
    }
  }

  // ---------- what the retrieved chunks amount to ----------

  function Joined(pieces: seq<Piece>): string {
    if pieces == [] then "" else Joined(pieces[..|pieces| - 1]) + pieces[|pieces| - 1].content
  }

  /** `split` cuts contiguous pieces and names them in increasing order. */
  predicate CutsInOrder(packed: string, pieces: seq<Piece>) {
    && Joined(pieces) == packed
    && (forall i, j :: 0 <= i < j < |pieces| ==> Less(pieces[i].suffix, pieces[j].suffix))
    && (forall i :: 0 <= i < |pieces| ==> '/' !in pieces[i].suffix)
  }

  function NamesOf(prefix: string, pieces: seq<Piece>): (names: seq<string>)
    ensures |names| == |pieces|
  {
    seq(|pieces|, i requires 0 <= i < |pieces| => prefix + pieces[i].suffix)
  }

  function SumOfSizes(chunks: seq<ChunkData>): nat {
    if chunks == [] then 0 else SumOfSizes(chunks[..|chunks| - 1]) + chunks[|chunks| - 1].size
  }

  lemma NamesIncrease(prefix: string, packed: string, pieces: seq<Piece>)
    requires CutsInOrder(packed, pieces)
    ensures Increasing(NamesOf(prefix, pieces))
    ensures forall n :: n in NamesOf(prefix, pieces) ==> Matches(n, prefix)
  {
    forall i, j | 0 <= i < j < |pieces|
      ensures Less(prefix + pieces[i].suffix, prefix + pieces[j].suffix)
    {
      LessAfterPrefix(prefix, pieces[i].suffix, pieces[j].suffix);
    }
  }

  lemma {:induction false} ContentFrame(files: Files, files': Files, names: seq<string>)
    requires forall n :: n in names ==> Read(files, n) == Read(files', n)
    ensures ContentOf(files, names) == ContentOf(files', names)
  {
    if names != [] {
      ContentFrame(files, files', names[..|names| - 1]);
    }
  }

  lemma LastNameIsNew(prefix: string, packed: string, pieces: seq<Piece>)
    requires CutsInOrder(packed, pieces) && pieces != []
    ensures var k := |pieces| - 1;
            && NamesOf(prefix, pieces) == NamesOf(prefix, pieces[..k]) + [prefix + pieces[k].suffix]
            && prefix + pieces[k].suffix !in NamesOf(prefix, pieces[..k])
  {
    var k, names := |pieces| - 1, NamesOf(prefix, pieces);
    assert names == NamesOf(prefix, pieces[..k]) + [prefix + pieces[k].suffix];
    assert names[..k] == NamesOf(prefix, pieces[..k]);
    NamesIncrease(prefix, packed, pieces);
    BeforeLast(names, names[k]);
  }

  /** One more piece, under a new name. */
  lemma PieceWritten(before: Files, names: seq<string>, name: string, content: string, packed: string)
    requires name !in names && ContentOf(before, names) == packed
    ensures ContentOf(before[name := content], names + [name]) == packed + content
  {
    ContentFrame(before, before[name := content], names);
    assert (names + [name])[..|names|] == names;
  }

  /** Each piece is in the file of its name; no other file is written. */
  lemma {:induction false} PiecesWritten(files: Files, prefix: string, pieces: seq<Piece>, packed: string)
    requires CutsInOrder(packed, pieces)
    ensures forall n :: n in WithPieces(files, prefix, pieces) <==> n in files || n in NamesOf(prefix, pieces)
    ensures forall n :: n !in NamesOf(prefix, pieces) ==> Read(WithPieces(files, prefix, pieces), n) == Read(files, n)
    ensures ContentOf(WithPieces(files, prefix, pieces), NamesOf(prefix, pieces)) == packed
  {
    if pieces != [] {
      var k := |pieces| - 1;
      PiecesWritten(files, prefix, pieces[..k], Joined(pieces[..k]));
      LastNameIsNew(prefix, packed, pieces);
      PieceWritten(WithPieces(files, prefix, pieces[..k]), NamesOf(prefix, pieces[..k]), prefix + pieces[k].suffix,
                   pieces[k].content, Joined(pieces[..k]));
    }
  }

  /** Bytes in the listed files that belong to an earlier publication. */
  function StaleSize(files: Files, names: seq<string>, stale: set<string>): nat {
    if names == [] then 0
    else
      var last := names[|names| - 1];
      StaleSize(files, names[..|names| - 1], stale) + if last in stale then |Read(files, last)| else 0
  }

  /** A greatest name that is new is the last of the new ones. */
  lemma SharedLast(names: seq<string>, news: seq<string>)
    requires Increasing(names) && Increasing(news) && names != [] && names[|names| - 1] in news
    requires forall n :: n in news ==> n in names
    ensures news[|news| - 1] == names[|names| - 1]
  {
    var last := names[|names| - 1];
    LastIsGreatest(news, last);
    LastIsGreatest(names, news[|news| - 1]);
    LessTotal(last, news[|news| - 1]);
  }

  /** Without the last name, which is new, the two lists are as related as before. */
  lemma WithoutShared(names: seq<string>, news: seq<string>, stale: set<string>)
    requires Increasing(names) && Increasing(news) && names != [] && names[|names| - 1] in news
    requires forall n :: n in news ==> n in names
    requires forall n :: n in names ==> (n in stale <==> n !in news)
    ensures var before, newsBefore := names[..|names| - 1], news[..|news| - 1];
            && news[|news| - 1] == names[|names| - 1]
            && (forall n :: n in newsBefore ==> n in before)
            && (forall n :: n in before ==> (n in stale <==> n !in newsBefore))
  {
    SharedLast(names, news);
    var before, newsBefore := names[..|names| - 1], news[..|news| - 1];
    forall n | n in newsBefore
      ensures n in before
    {
      BeforeLast(news, n);
      BeforeLast(names, n);
    }
    forall n | n in before
      ensures n in stale <==> n !in newsBefore
    {
      BeforeLast(news, n);
      BeforeLast(names, n);
    }
  }

  /** What is listed beyond the new pieces comes on top of them. */
  lemma {:induction false} StaleOnTop(files: Files, names: seq<string>, news: seq<string>, stale: set<string>)
    requires Increasing(names) && Increasing(news)
    requires forall n :: n in news ==> n in names
    requires forall n :: n in names ==> (n in stale <==> n !in news)
    ensures |ContentOf(files, names)| == |ContentOf(files, news)| + StaleSize(files, names, stale)
    ensures StaleSize(files, names, stale) == 0 ==> ContentOf(files, names) == ContentOf(files, news)
    decreases |names|
  {
    if names != [] && names[|names| - 1] in news {
      WithoutShared(names, news, stale);
      StaleOnTop(files, names[..|names| - 1], news[..|news| - 1], stale);
    } else if names != [] {
      assert names == names[..|names| - 1] + [names[|names| - 1]];
      StaleOnTop(files, names[..|names| - 1], news, stale);
    } else {
      NoneOfNone(names, news);
    }
  }

  lemma NoneOfNone(names: seq<string>, news: seq<string>)
    requires forall n :: n in news ==> n in names
    ensures names == [] ==> news == []
  {
    if news != [] {
      assert news[0] in names;
    }
  }

  lemma {:induction false} NothingStale(files: Files, names: seq<string>, stale: set<string>)
    ensures StaleSize(files, names, stale) == 0 <==> forall n :: n in names && n in stale ==> Read(files, n) == ""
  {
    if names != [] {
      NothingStale(files, names[..|names| - 1], stale);
      assert names == names[..|names| - 1] + [names[|names| - 1]];
    }
  }

  lemma {:induction false} SizesAddUp(c: Commands, files: Files, chunks: seq<ChunkData>)
    requires forall i :: 0 <= i < |chunks| ==> chunks[i] == ChunkOf(c, files, chunks[i].file)
    ensures SumOfSizes(chunks) == |ContentOf(files, FilesOf(chunks))|
  {
    if chunks != [] {
      SizesAddUp(c, files, chunks[..|chunks| - 1]);
      assert FilesOf(chunks)[..|chunks| - 1] == FilesOf(chunks[..|chunks| - 1]);
    }
  }

  /** Chunks of an earlier publication under the same name, not overwritten by this one, are empty. */
  predicate NoStaleBytes(before: Files, prefix: string, pieces: seq<Piece>) {
    forall n :: n in before && Matches(n, prefix) && n !in NamesOf(prefix, pieces) ==> before[n] == ""
  }

  /** What is there after the publication: the pieces, and what was there before. */
  lemma AfterPublication(before: Files, after: Files, file: string, packed: string, pieces: seq<Piece>, removed: bool)
    requires CutsInOrder(packed, pieces)
    requires var cut := WithPieces(Without(before, file)[file + ".gz" := packed], file + ".gz.", pieces);
             after == (if removed then Without(cut, file + ".gz") else cut)
    ensures var prefix := file + ".gz.";
            && ContentOf(after, NamesOf(prefix, pieces)) == packed
            && (forall n :: Matches(n, prefix) ==> (n in after <==> n in before || n in NamesOf(prefix, pieces)))
            && (forall n :: Matches(n, prefix) && n !in NamesOf(prefix, pieces) ==> Read(after, n) == Read(before, n))
            && Read(WithPieces(Without(before, file)[file + ".gz" := packed], prefix, pieces), file + ".gz") == packed
  {
    var prefix := file + ".gz.";
    var packedFiles := Without(before, file)[file + ".gz" := packed];
    PiecesWritten(packedFiles, prefix, pieces, packed);
    NamesIncrease(prefix, packed, pieces);
    assert !Matches(file, prefix) && !Matches(file + ".gz", prefix);
    ContentFrame(WithPieces(packedFiles, prefix, pieces), after, NamesOf(prefix, pieces));
  }

  /**
   Whoever merges the announced chunks, in the announced order, into a file that is not there gets the
   compressed file back, and the announced size is the sum of the chunks' sizes, exactly when no bytes of
   an earlier publication are in the way.
   */
  lemma ChunksRebuild(
    c: Commands, before: Files, after: Files, file: string, chunkSize: string, removed: bool, e: ResultData,
    output: string)
    requires file in before && c.gzip(before[file], file + ".gz" in before).Some?
    requires var packed := c.gzip(before[file], file + ".gz" in before).value;
             CutsInOrder(packed, c.split(packed, chunkSize).pieces)
    requires Announced(c, before, after, file, chunkSize, removed, e) && output !in after
    ensures var packed := c.gzip(before[file], file + ".gz" in before).value;
            var clean := NoStaleBytes(before, file + ".gz.", c.split(packed, chunkSize).pieces);
            && (Read(Merged(after, output, FilesOf(e.chunks)), output) == packed <==> clean)
            && e.size == |packed| && (SumOfSizes(e.chunks) == e.size <==> clean)
  {
    var packed := c.gzip(before[file], file + ".gz" in before).value;
    var pieces, prefix, names := c.split(packed, chunkSize).pieces, file + ".gz.", FilesOf(e.chunks);
    AfterPublication(before, after, file, packed, pieces, removed);
    MergedContent(after, output, names);
    SizesAddUp(c, after, e.chunks);
    Rebuild(before, after, prefix, packed, pieces, names);
  }

  lemma Rebuild(before: Files, after: Files, prefix: string, packed: string, pieces: seq<Piece>, names: seq<string>)
    requires CutsInOrder(packed, pieces) && Lists(after, prefix, names)
    requires ContentOf(after, NamesOf(prefix, pieces)) == packed
    requires forall n :: Matches(n, prefix) ==> (n in after <==> n in before || n in NamesOf(prefix, pieces))
    requires forall n :: Matches(n, prefix) && n !in NamesOf(prefix, pieces) ==> Read(after, n) == Read(before, n)
    ensures ContentOf(after, names) == packed <==> NoStaleBytes(before, prefix, pieces)
    ensures |ContentOf(after, names)| == |packed| <==> NoStaleBytes(before, prefix, pieces)
  {
    var news := NamesOf(prefix, pieces);
    NamesIncrease(prefix, packed, pieces);
    var stale := set n | n in names && n !in news;
    StaleOnTop(after, names, news, stale);
    NothingStale(after, names, stale);
  }
}