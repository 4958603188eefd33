// The chunk store of the repository index, and the path index kept beside it.
module ChunkIndex {
  import opened Prelude

  // The text of a chunk is its lines, or the outline made from them.
  datatype Chunk = Chunk(path: string, first: nat, last: nat, lines: seq<string>, outline: bool)

  datatype Config = Config(chunkLines: nat, summariseOver: int, maxFileBytes: int)

  // What the disk has under a path; a file whose size or text cannot be had has no text.
  datatype Disk = NoFile | FileOnDisk(size: Option<nat>, text: Option<seq<string>>)

  predicate Blank(lines: seq<string>) {
    forall i, j :: 0 <= i < |lines| && 0 <= j < |lines[i]| ==> Space(lines[i][j])
  }

  lemma BlankExact(lines: seq<string>)
    ensures Blank(lines) <==> forall line, ch :: line in lines && ch in line ==> Space(ch)
  {
    if Blank(lines) {
      forall line, ch | line in lines && ch in line ensures Space(ch) {
        var i :| 0 <= i < |lines| && lines[i] == line;
        var j :| 0 <= j < |line| && line[j] == ch;
      }
    }
    forall i, j | 0 <= i < |lines| && 0 <= j < |lines[i]| && !Space(lines[i][j])
      ensures exists line, ch :: line in lines && ch in line && !Space(ch)
    {
      assert lines[i] in lines && lines[i][j] in lines[i];
    }
  }

  function Least(a: nat, b: nat): nat { if a <= b then a else b }

  // -- the chunks of one file --

  // The number of lines before the k-th window.
  function Before(k: nat, n: nat): nat { if k == 0 then 0 else Before(k - 1, n) + n }

  // The k-th window.
  function WindowAt(lines: seq<string>, n: nat, k: nat): (w: seq<string>) {
    lines[Least(|lines|, Before(k, n))..Least(|lines|, Before(k + 1, n))]
  }

  function WindowChunk(path: string, lines: seq<string>, n: nat, k: nat): Chunk {
    Chunk(path, Before(k, n) + 1, Least(|lines|, Before(k + 1, n)), WindowAt(lines, n, k), false)
  }

  // The chunks of the windows before the k-th.
  function Windows(path: string, lines: seq<string>, n: nat, k: nat): seq<Chunk> {
    if k == 0 then []
    else
      Windows(path, lines, n, k - 1) +
      if Blank(WindowAt(lines, n, k - 1)) then [] else [WindowChunk(path, lines, n, k - 1)]
  }

  // The windows that `range(0, max(1, len(lines)), n)` starts.
  function WindowCount(len: nat, n: nat): nat
    requires n >= 1
  {
    if len <= n then 1 else 1 + WindowCount(len - n, n)
  }

  // The window a line falls in: how often n goes into its index.
  function WindowOf(line: nat, n: nat): nat
    requires n >= 1
  {
    if line < n then 0 else 1 + WindowOf(line - n, n)
  }

  function Chunking(path: string, lines: seq<string>, c: Config): seq<Chunk>
    requires c.chunkLines >= 1
  {
    if |lines| > c.summariseOver then [Chunk(path, 1, |lines|, lines, true)]
    else Windows(path, lines, c.chunkLines, WindowCount(|lines|, c.chunkLines))
  }

  lemma {:induction false} WindowOfLine(line: nat, n: nat, k: nat)
    requires n >= 1
    ensures Before(k, n) <= line < Before(k + 1, n) <==> WindowOf(line, n) == k
  {
    if line < n {
      if k > 0 { AfterFirst(k, n); }
    } else if k > 0 {
      WindowOfLine(line - n, n, k - 1);
    }
  }

  lemma {:induction false} AfterFirst(k: nat, n: nat)
    requires k > 0
    ensures Before(k, n) >= n
  {
    if k > 1 { AfterFirst(k - 1, n); }
  }

  lemma {:induction false} WindowCountIs(len: nat, n: nat, k: nat)
    requires n >= 1 && k >= 1 && len <= Before(k, n) && (k == 1 || Before(k - 1, n) < len)
    ensures k == WindowCount(len, n)
  {
    if k > 1 {
      AfterFirst(k - 1, n);
      WindowCountIs(len - n, n, k - 1);
    }
  }

  lemma {:induction false} LineInRange(line: nat, len: nat, n: nat)
    requires n >= 1 && line < len
    ensures WindowOf(line, n) < WindowCount(len, n)
  {
    if line >= n { LineInRange(line - n, len - n, n); }
  }

  predicate Holds(c: Chunk, line: nat) {
    c.first <= line + 1 <= c.last
  }

  function Holding(chunks: seq<Chunk>, line: nat): nat {
    if chunks == [] then 0
    else Holding(chunks[..|chunks| - 1], line) + if Holds(chunks[|chunks| - 1], line) then 1 else 0
  }

  // The chunk is this stretch of the file, and not blank.
  predicate Excerpt(c: Chunk, path: string, lines: seq<string>, n: nat) {
    && c.path == path && !c.outline && 1 <= c.first <= c.last <= |lines| && c.last - c.first < n
    && c.lines == lines[c.first - 1..c.last] && !Blank(c.lines)
  }

  lemma {:induction false} WindowHolds(path: string, lines: seq<string>, n: nat, k: nat, line: nat)
    requires n >= 1 && line < |lines|
    ensures Holds(WindowChunk(path, lines, n, k), line) <==> WindowOf(line, n) == k
  {
    WindowOfLine(line, n, k);
  }

  lemma {:induction false} HoldingSnoc(chunks: seq<Chunk>, c: Chunk, line: nat)
    ensures Holding(chunks + [c], line) == Holding(chunks, line) + if Holds(c, line) then 1 else 0
  {
    assert (chunks + [c])[..|chunks|] == chunks;
  }

  // The line is in the w-th window and in no other.
  ghost predicate Falls(path: string, lines: seq<string>, n: nat, line: nat, w: nat) {
    forall k: nat :: Holds(WindowChunk(path, lines, n, k), line) <==> k == w
  }

  lemma {:induction false} HoldingNext(path: string, lines: seq<string>, n: nat, k: nat, line: nat, w: nat)
    requires k > 0 && Falls(path, lines, n, line, w)
    ensures Holding(Windows(path, lines, n, k), line) ==
            Holding(Windows(path, lines, n, k - 1), line) +
            if k - 1 == w && !Blank(WindowAt(lines, n, w)) then 1 else 0
  {
    var before, c := Windows(path, lines, n, k - 1), WindowChunk(path, lines, n, k - 1);
    if Blank(WindowAt(lines, n, k - 1)) {
      assert Windows(path, lines, n, k) == before;
    } else {
      HoldingSnoc(before, c, line);
    }
  }

  lemma {:induction false} HoldingWindows(path: string, lines: seq<string>, n: nat, k: nat, line: nat, w: nat)
    requires Falls(path, lines, n, line, w)
    ensures Holding(Windows(path, lines, n, k), line) == if w < k && !Blank(WindowAt(lines, n, w)) then 1 else 0
  {
    if k > 0 {
      HoldingWindows(path, lines, n, k - 1, line, w);
      HoldingNext(path, lines, n, k, line, w);
    }
  }

  lemma {:induction false} WindowsAreExcerpts(path: string, lines: seq<string>, n: nat, k: nat)
    requires n >= 1
    ensures forall j :: 0 <= j < |Windows(path, lines, n, k)| ==>
      Excerpt(Windows(path, lines, n, k)[j], path, lines, n) && Windows(path, lines, n, k)[j].last <= Before(k, n)
    ensures forall i, j :: 0 <= i < j < |Windows(path, lines, n, k)| ==>
      Windows(path, lines, n, k)[i].last < Windows(path, lines, n, k)[j].first
  {
    if k > 0 {
      WindowsAreExcerpts(path, lines, n, k - 1);
      var w := WindowAt(lines, n, k - 1);
      if !Blank(w) { assert w != []; }
    }
  }

  // Up to the outline limit the chunks are stretches of the file, in order.
  lemma ChunkingExcerpts(path: string, lines: seq<string>, c: Config)
    requires c.chunkLines >= 1 && |lines| <= c.summariseOver
    ensures var chunks := Chunking(path, lines, c);
            && (forall j :: 0 <= j < |chunks| ==> Excerpt(chunks[j], path, lines, c.chunkLines))
            && (forall i, j :: 0 <= i < j < |chunks| ==> chunks[i].last < chunks[j].first)
  {
    WindowsAreExcerpts(path, lines, c.chunkLines, WindowCount(|lines|, c.chunkLines));
  }

  lemma {:induction false} LineInWindow(lines: seq<string>, n: nat, line: nat)
    requires n >= 1 && line < |lines|
    ensures lines[line] in WindowAt(lines, n, WindowOf(line, n))
  {
    var w := WindowOf(line, n);
    WindowOfLine(line, n, w);
    assert WindowAt(lines, n, w)[line - Before(w, n)] == lines[line];
  }

  // Each line is in just one of them, or in none when the window it falls in is blank.
  lemma {:induction false} LineOnce(path: string, lines: seq<string>, c: Config, line: nat)
    requires c.chunkLines >= 1 && line < |lines| <= c.summariseOver
    ensures Holding(Chunking(path, lines, c), line) ==
            if Blank(WindowAt(lines, c.chunkLines, WindowOf(line, c.chunkLines))) then 0 else 1
    ensures lines[line] in WindowAt(lines, c.chunkLines, WindowOf(line, c.chunkLines))
  {
    LineInRange(line, |lines|, c.chunkLines);
    forall k: nat { WindowHolds(path, lines, c.chunkLines, k, line); }
    HoldingWindows(path, lines, c.chunkLines, WindowCount(|lines|, c.chunkLines), line, WindowOf(line, c.chunkLines));
    LineInWindow(lines, c.chunkLines, line);
  }

  // A longer file has one chunk, its outline, which spans every line of it.
  lemma OutlineSpans(path: string, lines: seq<string>, c: Config)
    requires c.chunkLines >= 1 && |lines| > c.summariseOver
    ensures var chunks := Chunking(path, lines, c);
            && |chunks| == 1 && chunks[0].outline && chunks[0].path == path && chunks[0].lines == lines
            && chunks[0].first == 1 && chunks[0].last == |lines|
            && forall line :: 0 <= line < |lines| ==> Holding(chunks, line) == 1
  {
    var chunk := Chunking(path, lines, c)[0];
    assert [chunk][..0] == [];
    forall line | 0 <= line < |lines| ensures Holding([chunk], line) == 1 { HoldingSnoc([], chunk, line); }
  }

  // -- positions --

  // The positions of a path's chunks, increasing.
  function Positions(chunks: seq<Chunk>, path: string): seq<nat> {
    if chunks == [] then []
    else
      Positions(chunks[..|chunks| - 1], path) +
      if chunks[|chunks| - 1].path == path then [|chunks| - 1] else []
  }

  lemma {:induction false} PositionsExact(chunks: seq<Chunk>, path: string)
    ensures forall i: nat :: i in Positions(chunks, path) <==> i < |chunks| && chunks[i].path == path
    ensures forall k, l :: 0 <= k < l < |Positions(chunks, path)| ==>
      Positions(chunks, path)[k] < Positions(chunks, path)[l]
  {
    if chunks != [] {
      var before := chunks[..|chunks| - 1];
      PositionsExact(before, path);
      var at := Positions(before, path);
      assert forall k :: 0 <= k < |at| ==> at[k] in at;
    }
  }

  lemma {:induction false} PositionsSnoc(chunks: seq<Chunk>, c: Chunk, path: string)
    ensures Positions(chunks + [c], path) == Positions(chunks, path) + if c.path == path then [|chunks|] else []
  {
    assert (chunks + [c])[..|chunks|] == chunks;
  }

  function At(byPath: map<string, seq<nat>>, path: string): seq<nat> {
    if path in byPath then byPath[path] else []
  }

  // The index says where each path's chunks are.
  ghost predicate Agree(chunks: seq<Chunk>, byPath: map<string, seq<nat>>) {
    forall path :: At(byPath, path) == Positions(chunks, path)
  }

  function Without(chunks: seq<Chunk>, path: string): seq<Chunk> {
    if chunks == [] then []
    else
      Without(chunks[..|chunks| - 1], path) +
      if chunks[|chunks| - 1].path == path then [] else [chunks[|chunks| - 1]]
  }

  lemma {:induction false} WithoutConcat(a: seq<Chunk>, b: seq<Chunk>, path: string)
    ensures Without(a + b, path) == Without(a, path) + Without(b, path)
  {
    if b == [] {
      assert a + b == a;
    } else {
      WithoutConcat(a, b[..|b| - 1], path);
      assert (a + b)[..|a + b| - 1] == a + b[..|b| - 1];
    }
  }

  lemma {:induction false} WithoutOwn(chunks: seq<Chunk>, path: string)
    requires forall i :: 0 <= i < |chunks| ==> chunks[i].path == path
    ensures Without(chunks, path) == []
  {
    if chunks != [] { WithoutOwn(chunks[..|chunks| - 1], path); }
  }

  lemma {:induction false} WithoutOther(chunks: seq<Chunk>, path: string)
    requires forall i :: 0 <= i < |chunks| ==> chunks[i].path != path
    ensures Without(chunks, path) == chunks
  {
    if chunks != [] {
      var init, last := chunks[..|chunks| - 1], chunks[|chunks| - 1];
      WithoutOther(init, path);
      assert chunks == init + [last];
    }
  }

  // -- what the store holds --

  // The files indexed, the last one indexed last, and the lines each had then.
  datatype Library = Library(order: seq<string>, texts: map<string, seq<string>>)

  predicate Distinct(order: seq<string>) {
    forall i, j :: 0 <= i < j < |order| ==> order[i] != order[j]
  }

  ghost predicate Listed(l: Library) {
    (forall path :: path in l.texts <==> path in l.order) && Distinct(l.order)
  }

  // The chunks of these files, one file after the other.
  function Store(order: seq<string>, texts: map<string, seq<string>>, c: Config): seq<Chunk>
    requires c.chunkLines >= 1 && forall i :: 0 <= i < |order| ==> order[i] in texts
  {
    if order == [] then []
    else
      var path := order[|order| - 1];
      Store(order[..|order| - 1], texts, c) + Chunking(path, texts[path], c)
  }

  function Removed(order: seq<string>, path: string): (o: seq<string>)
    ensures path !in o && forall p :: p in o <==> p in order && p != path
  {
    if order == [] then []
    else Removed(order[..|order| - 1], path) + if order[|order| - 1] == path then [] else [order[|order| - 1]]
  }

  lemma {:induction false} RemovedDistinct(order: seq<string>, path: string)
    requires Distinct(order)
    ensures Distinct(Removed(order, path))
  {
    if order != [] {
      var before, last := order[..|order| - 1], order[|order| - 1];
      RemovedDistinct(before, path);
      assert last !in before;
      DistinctSnoc(Removed(before, path), last);
    }
  }

  lemma DistinctSnoc(order: seq<string>, path: string)
    requires Distinct(order) && path !in order
    ensures Distinct(order + [path])
  {}

  function Dropped(l: Library, path: string): Library {
    Library(Removed(l.order, path), l.texts - {path})
  }

  function Added(l: Library, path: string, lines: seq<string>): Library {
    Library(Removed(l.order, path) + [path], l.texts[path := lines])
  }

  lemma {:induction false} ChunkingPath(path: string, lines: seq<string>, c: Config)
    requires c.chunkLines >= 1
    ensures forall i :: 0 <= i < |Chunking(path, lines, c)| ==> Chunking(path, lines, c)[i].path == path
  {
    WindowsAreExcerpts(path, lines, c.chunkLines, WindowCount(|lines|, c.chunkLines));
  }

  // Dropping a path's chunks leaves the store of the other files.
  lemma {:induction false} StoreWithout(order: seq<string>, texts: map<string, seq<string>>, c: Config, path: string)
    requires c.chunkLines >= 1 && forall i :: 0 <= i < |order| ==> order[i] in texts
    ensures var o := Removed(order, path);
            && (forall i :: 0 <= i < |o| ==> o[i] in texts)
            && Without(Store(order, texts, c), path) == Store(o, texts, c)
  {
    var o := Removed(order, path);
    assert forall i :: 0 <= i < |o| ==> o[i] in o;
    if order != [] {
      var before, last := order[..|order| - 1], order[|order| - 1];
      StoreWithout(before, texts, c, path);
      WithoutConcat(Store(before, texts, c), Chunking(last, texts[last], c), path);
      ChunkingPath(last, texts[last], c);
      var kept := Removed(before, path);
      if last == path {
        WithoutOwn(Chunking(last, texts[last], c), path);
        assert kept + [] == kept;
      } else {
        WithoutOther(Chunking(last, texts[last], c), path);
        assert (kept + [last])[..|kept|] == kept;
      }
    }
  }

  lemma {:induction false} StoreSame(
    order: seq<string>, a: map<string, seq<string>>, b: map<string, seq<string>>, c: Config)
    requires c.chunkLines >= 1
    requires forall i :: 0 <= i < |order| ==> order[i] in a && order[i] in b && a[order[i]] == b[order[i]]
    ensures Store(order, a, c) == Store(order, b, c)
  {
    if order != [] { StoreSame(order[..|order| - 1], a, b, c); }
  }

  lemma DroppedListed(l: Library, path: string)
    requires Listed(l)
    ensures Listed(Dropped(l, path))
  {
    RemovedDistinct(l.order, path);
  }

  lemma AddedListed(l: Library, path: string, lines: seq<string>)
    requires Listed(l)
    ensures Listed(Added(l, path, lines))
  {
    DroppedListed(l, path);
    DistinctSnoc(Removed(l.order, path), path);
  }

  lemma {:induction false} DroppedStore(l: Library, c: Config, path: string)
    requires c.chunkLines >= 1 && Listed(l)
    ensures var d := Dropped(l, path);
            Listed(d) && Store(d.order, d.texts, c) == Without(Store(l.order, l.texts, c), path)
  {
    StoreWithout(l.order, l.texts, c, path);
    DroppedListed(l, path);
    StoreSame(Removed(l.order, path), l.texts, l.texts - {path}, c);
  }

  lemma {:induction false} AddedStore(l: Library, c: Config, path: string, lines: seq<string>)
    requires c.chunkLines >= 1 && Listed(l)
    ensures var a := Added(l, path, lines);
            Listed(a) && Store(a.order, a.texts, c) ==
            Without(Store(l.order, l.texts, c), path) + Chunking(path, lines, c)
  {
    DroppedStore(l, c, path);
    AddedListed(l, path, lines);
    var o := Removed(l.order, path);
    assert (o + [path])[..|o|] == o;
    StoreSame(o, l.texts - {path}, l.texts[path := lines], c);
  }

  // A path's chunks, in order.
  function Of(chunks: seq<Chunk>, path: string): seq<Chunk> {
    if chunks == [] then []
    else
      Of(chunks[..|chunks| - 1], path) +
      if chunks[|chunks| - 1].path == path then [chunks[|chunks| - 1]] else []
  }

  lemma {:induction false} OfPositions(chunks: seq<Chunk>, path: string)
    ensures |Positions(chunks, path)| == |Of(chunks, path)|
    ensures forall k :: 0 <= k < |Of(chunks, path)| ==>
      Positions(chunks, path)[k] < |chunks| && chunks[Positions(chunks, path)[k]] == Of(chunks, path)[k]
  {
    if chunks != [] { OfPositions(chunks[..|chunks| - 1], path); }
  }

  lemma {:induction false} OfSnoc(chunks: seq<Chunk>, c: Chunk, path: string)
    ensures Of(chunks + [c], path) == Of(chunks, path) + if c.path == path then [c] else []
  {
    assert (chunks + [c])[..|chunks|] == chunks;
  }

  lemma {:induction false} OfConcat(a: seq<Chunk>, b: seq<Chunk>, path: string)
    requires forall i :: 0 <= i < |b| ==> b[i].path == path
    ensures Of(a + b, path) == Of(a, path) + b
  {
    if b == [] {
      assert a + b == a;
    } else {
      var init, last := b[..|b| - 1], b[|b| - 1];
      OfConcat(a, init, path);
      assert a + b == a + init + [last];
      OfSnoc(a + init, last, path);
      assert Of(a, path) + b == Of(a, path) + init + [last];
    }
  }

  lemma {:induction false} OfOther(a: seq<Chunk>, b: seq<Chunk>, path: string)
    requires forall i :: 0 <= i < |b| ==> b[i].path != path
    ensures Of(a + b, path) == Of(a, path)
  {
    if b == [] {
      assert a + b == a;
    } else {
      var init, last := b[..|b| - 1], b[|b| - 1];
      OfOther(a, init, path);
      assert a + b == a + init + [last];
      OfSnoc(a + init, last, path);
    }
  }

  // The store has of each path the chunking of the text it was last indexed with.
  lemma {:induction false} StoreOf(order: seq<string>, texts: map<string, seq<string>>, c: Config, path: string)
    requires c.chunkLines >= 1 && Distinct(order) && forall i :: 0 <= i < |order| ==> order[i] in texts
    ensures Of(Store(order, texts, c), path) == if path in order then Chunking(path, texts[path], c) else []
  {
    if order != [] {
      var before, last := order[..|order| - 1], order[|order| - 1];
      StoreOf(before, texts, c, path);
      var store, chunks := Store(before, texts, c), Chunking(last, texts[last], c);
      ChunkingPath(last, texts[last], c);
      assert last !in before;
      assert path in order <==> path in before || path == last;
      if last == path {
        OfConcat(store, chunks, path);
        assert [] + chunks == chunks;
      } else {
        OfOther(store, chunks, path);
      }
    }
  }

  // -- the operations on the library --

  predicate Readable(d: Disk, c: Config) {
    d.FileOnDisk? && d.size.Some? && d.size.value <= c.maxFileBytes && d.text.Some?
  }

  // A file that cannot be read keeps what it was last indexed with.
  function Indexed(l: Library, path: string, d: Disk, c: Config): Library {
    if Readable(d, c) then Added(l, path, d.text.value) else l
  }

  // A file is taken in with its text when it is there, small enough and readable.
  lemma IndexedExact(l: Library, path: string, size: nat, lines: seq<string>, c: Config)
    ensures Indexed(l, path, FileOnDisk(Some(size), Some(lines)), c) ==
            if size <= c.maxFileBytes then Added(l, path, lines) else l
    ensures Indexed(l, path, FileOnDisk(Some(size), None), c) == l
    ensures Indexed(l, path, FileOnDisk(None, Some(lines)), c) == l && Indexed(l, path, NoFile, c) == l
  {}

  function IndexedAll(l: Library, paths: seq<string>, disk: string -> Disk, c: Config): Library {
    if paths == [] then l
    else
      var last := paths[|paths| - 1];
      Indexed(IndexedAll(l, paths[..|paths| - 1], disk, c), last, disk(last), c)
  }

  function DroppedAll(l: Library, paths: seq<string>): Library {
    if paths == [] then l else Dropped(DroppedAll(l, paths[..|paths| - 1]), paths[|paths| - 1])
  }

  // The named paths that are files, in the order given.
  function FilesAmong(paths: seq<string>, disk: string -> Disk): seq<string> {
    if paths == [] then []
    else
      FilesAmong(paths[..|paths| - 1], disk) +
      if disk(paths[|paths| - 1]).FileOnDisk? then [paths[|paths| - 1]] else []
  }

  function Invalidated(l: Library, paths: seq<string>, disk: string -> Disk, c: Config): Library {
    if paths == [] then Library([], map[])
    else IndexedAll(DroppedAll(l, paths), FilesAmong(paths, disk), disk, c)
  }

  function TextOf(l: Library, path: string): Option<seq<string>> {
    if path in l.texts then Some(l.texts[path]) else None
  }

  lemma {:induction false} IndexedAllTexts(
    l: Library, paths: seq<string>, disk: string -> Disk, c: Config, path: string)
    ensures TextOf(IndexedAll(l, paths, disk, c), path) ==
            if path in paths && Readable(disk(path), c) then disk(path).text else TextOf(l, path)
  {
    if paths != [] {
      IndexedAllTexts(l, paths[..|paths| - 1], disk, c, path);
      assert path in paths <==> path in paths[..|paths| - 1] || path == paths[|paths| - 1];
    }
  }

  lemma {:induction false} DroppedAllTexts(l: Library, paths: seq<string>, path: string)
    ensures TextOf(DroppedAll(l, paths), path) == if path in paths then None else TextOf(l, path)
  {
    if paths != [] {
      DroppedAllTexts(l, paths[..|paths| - 1], path);
      assert path in paths <==> path in paths[..|paths| - 1] || path == paths[|paths| - 1];
    }
  }

  lemma {:induction false} FilesAmongAre(paths: seq<string>, disk: string -> Disk, path: string)
    ensures path in FilesAmong(paths, disk) <==> path in paths && disk(path).FileOnDisk?
  {
    if paths != [] {
      FilesAmongAre(paths[..|paths| - 1], disk, path);
      assert path in paths <==> path in paths[..|paths| - 1] || path == paths[|paths| - 1];
    }
  }

  // After an invalidation the named files are held just as the disk has them now, or not at all,
  // and the others as before; when none is named, nothing is held.
  lemma InvalidatedTexts(l: Library, paths: seq<string>, disk: string -> Disk, c: Config, path: string)
    ensures TextOf(Invalidated(l, paths, disk, c), path) ==
            if paths == [] then None
            else if path !in paths then TextOf(l, path)
            else if Readable(disk(path), c) then disk(path).text else None
  {
    DroppedAllTexts(l, paths, path);
    FilesAmongAre(paths, disk, path);
    IndexedAllTexts(DroppedAll(l, paths), FilesAmong(paths, disk), disk, c, path);
  }

  // -- the object --

  lemma NoPositions(byPath: map<string, seq<nat>>)
    ensures byPath == map[] ==> Agree([], byPath)
  {}

  lemma {:induction false} WithoutGone(chunks: seq<Chunk>, path: string)
    ensures Positions(Without(chunks, path), path) == []
  {
    if chunks != [] {
      var before, last := Without(chunks[..|chunks| - 1], path), chunks[|chunks| - 1];
      WithoutGone(chunks[..|chunks| - 1], path);
      if last.path == path {
        assert before + [] == before;
      } else {
        PositionsSnoc(before, last, path);
      }
    }
  }

  // The store, the path index and the library belong together.
  ghost predicate Consistent(l: Library, chunks: seq<Chunk>, byPath: map<string, seq<nat>>, c: Config) {
    c.chunkLines >= 1 && Listed(l) && chunks == Store(l.order, l.texts, c) && Agree(chunks, byPath)
  }

  lemma AgreeStill(chunks: seq<Chunk>, byPath: map<string, seq<nat>>, path: string)
    requires Agree(chunks, byPath) && At(byPath, path) == []
    ensures Agree(chunks, byPath - {path})
  {}

  lemma {:induction false} NothingToDrop(chunks: seq<Chunk>, path: string)
    requires Positions(chunks, path) == []
    ensures Without(chunks, path) == chunks
  {
    PositionsExact(chunks, path);
    assert forall i: nat :: i < |chunks| ==> i !in Positions(chunks, path);
    WithoutOther(chunks, path);
  }

  lemma DropNothing(l: Library, chunks: seq<Chunk>, byPath: map<string, seq<nat>>, c: Config, path: string)
    requires Consistent(l, chunks, byPath, c) && At(byPath, path) == []
    ensures Consistent(Dropped(l, path), chunks, byPath - {path}, c)
  {
    DroppedStore(l, c, path);
    NothingToDrop(chunks, path);
    AgreeStill(chunks, byPath, path);
  }

  lemma {:induction false} DropSome(
    l: Library, chunks: seq<Chunk>, byPath: map<string, seq<nat>>, c: Config, path: string,
    byPath': map<string, seq<nat>>)
    requires Consistent(l, chunks, byPath, c) && Agree(Without(chunks, path), byPath')
    ensures Consistent(Dropped(l, path), Without(chunks, path), byPath', c)
    ensures Positions(Without(chunks, path), path) == []
  {
    DroppedStore(l, c, path);
    WithoutGone(chunks, path);
  }

  // These chunks, all of one path, have been put behind the store.
  ghost predicate Appended(base: seq<Chunk>, chunks: seq<Chunk>, path: string, more: seq<Chunk>, at: seq<nat>) {
    && chunks == base + more && at == Positions(chunks, path) && |at| == |more|
    && forall p :: p != path ==> Positions(chunks, p) == Positions(base, p)
  }

  // One file put behind the store of the others.
  lemma AddOne(l: Library, chunks: seq<Chunk>, byPath: map<string, seq<nat>>, c: Config, path: string,
               lines: seq<string>, chunks': seq<Chunk>, at: seq<nat>)
    requires Listed(l) && Consistent(Dropped(l, path), chunks, byPath, c)
    requires Appended(chunks, chunks', path, Chunking(path, lines, c), at)
    ensures Consistent(Added(l, path, lines), chunks', byPath[path := at], c)
  {
    AddedStore(l, c, path, lines);
    DroppedStore(l, c, path);
    AgreeAdded(chunks, chunks', byPath, path, at);
  }

  lemma {:induction false} AgreeAdded(
    chunks: seq<Chunk>, chunks': seq<Chunk>, byPath: map<string, seq<nat>>, path: string, at: seq<nat>)
    requires Agree(chunks, byPath) && at == Positions(chunks', path)
    requires forall p :: p != path ==> Positions(chunks', p) == Positions(chunks, p)
    ensures Agree(chunks', byPath[path := at])
  {}

  lemma AppendedNext(base: seq<Chunk>, chunks: seq<Chunk>, path: string, more: seq<Chunk>, at: seq<nat>, c: Chunk)
    requires Appended(base, chunks, path, more, at) && c.path == path
    ensures Appended(base, chunks + [c], path, more + [c], at + [|chunks|])
  {
    forall p ensures p != path ==> Positions(chunks + [c], p) == Positions(base, p) { PositionsSnoc(chunks, c, p); }
    PositionsSnoc(chunks, c, path);
    assert base + (more + [c]) == chunks + [c];
  }

  lemma WindowsNext(path: string, lines: seq<string>, n: nat, k: nat, start: nat)
    requires start == Before(k, n)
    ensures Before(k + 1, n) == start + n
    ensures var body := lines[Least(|lines|, start)..Least(|lines|, start + n)];
            Windows(path, lines, n, k + 1) ==
            Windows(path, lines, n, k) +
            if Blank(body) then [] else [Chunk(path, start + 1, Least(|lines|, start + n), body, false)]
  {}

  // In a consistent state the path index, read with the empty list for a missing path, leads to just
  // the chunks of the text the path was last indexed with.
  lemma IndexLeadsToText(l: Library, chunks: seq<Chunk>, byPath: map<string, seq<nat>>, c: Config, path: string)
    requires Consistent(l, chunks, byPath, c)
    ensures var at := At(byPath, path);
            var text := if path in l.texts then Chunking(path, l.texts[path], c) else [];
            && |at| == |text|
            && (forall k :: 0 <= k < |at| ==> at[k] < |chunks| && chunks[at[k]] == text[k])
            && (forall i: nat :: i in at <==> i < |chunks| && chunks[i].path == path)
            && (forall j, k :: 0 <= j < k < |at| ==> at[j] < at[k])
  {
    StoreOf(l.order, l.texts, c, path);
    OfPositions(chunks, path);
    PositionsExact(chunks, path);
  }

  // It has no path without chunks.
  predicate Lean(byPath: map<string, seq<nat>>) {
    forall path :: path in byPath ==> byPath[path] != []
  }

  // How many chunks indexing these files makes.
  function ChunksMade(paths: seq<string>, disk: string -> Disk, c: Config): nat
    requires c.chunkLines >= 1
  {
    if paths == [] then 0
    else
      var last := paths[|paths| - 1];
      ChunksMade(paths[..|paths| - 1], disk, c) +
      if Readable(disk(last), c) then |Chunking(last, disk(last).text.value, c)| else 0
  }

  class ContextRepoMap {
    const config: Config
    var chunks: seq<Chunk>
    var byPath: map<string, seq<nat>>
    ghost var library: Library

    ghost predicate Valid()
      reads this
    {
      Consistent(library, chunks, byPath, config)
    }

    constructor (config: Config)
      requires config.chunkLines >= 1
      ensures Valid() && this.config == config && library == Library([], map[])
    {
      this.config := config;
      chunks, byPath, library := [], map[], Library([], map[]);
      new;
      NoPositions(byPath);
    }

    // Take the chunks at these positions out.
    method Keep(gone: set<nat>, ghost path: string)
      requires forall i: nat :: i < |chunks| ==> (i in gone <==> chunks[i].path == path)
      modifies this`chunks
      ensures chunks == Without(old(chunks), path)
    {
      var kept := [];
      for i := 0 to |chunks|
        invariant chunks == old(chunks) && kept == Without(chunks[..i], path)
      {
        assert chunks[..i + 1][..i] == chunks[..i];
        if i !in gone { kept := kept + [chunks[i]]; }
      }
      assert chunks[..|chunks|] == chunks;
      chunks := kept;
    }

    method Rebuild()
      modifies this`byPath
      ensures Agree(chunks, byPath) && Lean(byPath)
    {
      byPath := map[];
      NoPositions(byPath);
      for i := 0 to |chunks|
        invariant Agree(chunks[..i], byPath) && Lean(byPath)
      {
        var path := chunks[i].path;
        assert chunks[..i + 1] == chunks[..i] + [chunks[i]];
        forall p { PositionsSnoc(chunks[..i], chunks[i], p); }
        byPath := byPath[path := At(byPath, path) + [i]];
      }
      assert chunks[..|chunks|] == chunks;
    }

    // The part of `_drop` behind its early return.
    method Cut(at: seq<nat>, path: string)
      requires Valid() && at == Positions(chunks, path)
      modifies this
      ensures Valid() && library == Dropped(old(library), path)
      ensures Positions(chunks, path) == [] && Lean(byPath)
    {
      PositionsExact(chunks, path);
      var gone := set i | i in at;
      Keep(gone, path);
      Rebuild();
      DropSome(library, old(chunks), old(byPath), config, path, byPath);
      library := Dropped(library, path);
    }

    // `_drop`: a path without chunks is taken out of the path index, and otherwise that is made anew from
    // the chunks that are left, so that every path without chunks goes.
    method Drop(path: string)
      requires Valid()
      modifies this
      ensures Valid() && library == Dropped(old(library), path)
      ensures Positions(chunks, path) == [] && path !in byPath
      ensures if At(old(byPath), path) == [] then byPath == old(byPath) - {path} else Lean(byPath)
    {
      var at := At(byPath, path);
      assert at == Positions(chunks, path);
      if at == [] {
        DropNothing(library, chunks, byPath, config, path);
        byPath := byPath - {path};
        library := Dropped(library, path);
      } else {
        Cut(at, path);
      }
    }

    // The windows of a file, put behind the store; the positions they get.
    method AppendWindows(path: string, lines: seq<string>) returns (at: seq<nat>)
      requires config.chunkLines >= 1 && |lines| <= config.summariseOver && Positions(chunks, path) == []
      modifies this`chunks
      ensures Appended(old(chunks), chunks, path, Chunking(path, lines, config), at)
    {
      var n, end := config.chunkLines, if |lines| < 1 then 1 else |lines|;
      at := [];
      var start: nat := 0;
      ghost var k: nat := 0;
      ghost var more: seq<Chunk> := [];
      while start < end
        invariant start == Before(k, n) && (k == 0 || Before(k - 1, n) < end)
        invariant more == Windows(path, lines, n, k)
        invariant Appended(old(chunks), chunks, path, more, at)
        decreases end - start
      {
        WindowsNext(path, lines, n, k, start);
        var body := lines[Least(|lines|, start)..Least(|lines|, start + n)];
        var c := Chunk(path, start + 1, Least(|lines|, start + n), body, false);
        if !Blank(body) {
          AppendedNext(old(chunks), chunks, path, more, at, c);
          at, chunks, more := at + [|chunks|], chunks + [c], more + [c];
          assert Appended(old(chunks), chunks, path, more, at);
        } else {
          assert more + [] == more;
        }
        assert more == Windows(path, lines, n, k + 1);
        start := start + n;
        k := k + 1;
      }
      WindowCountIs(|lines|, n, k);
    }

    // The outline or the windows, put behind the store.
    method Append(path: string, lines: seq<string>) returns (at: seq<nat>)
      requires config.chunkLines >= 1 && Positions(chunks, path) == []
      modifies this`chunks
      ensures Appended(old(chunks), chunks, path, Chunking(path, lines, config), at)
    {
      if |lines| > config.summariseOver {
        var c := Chunk(path, 1, |lines|, lines, true);
        AppendedNext(chunks, chunks, path, [], [], c);
        at := [|chunks|];
        chunks := chunks + [c];
      } else {
        at := AppendWindows(path, lines);
      }
    }

    // `_index_file`.
    method IndexFile(path: string, d: Disk) returns (n: nat)
      requires Valid()
      modifies this
      ensures Valid() && library == Indexed(old(library), path, d, config)
      ensures n == if Readable(d, config) then |Chunking(path, d.text.value, config)| else 0
      ensures Readable(d, config) ==> path in byPath
    {
      if d.NoFile? || d.size.None? || d.size.value > config.maxFileBytes || d.text.None? { return 0; }
      n := Replace(path, d.text.value);
    }

    // The part of `_index_file` behind the reading.
    method Replace(path: string, lines: seq<string>) returns (n: nat)
      requires Valid()
      modifies this
      ensures Valid() && library == Added(old(library), path, lines) && n == |Chunking(path, lines, config)|
      ensures path in byPath
    {
      Drop(path);
      ghost var before, kept := chunks, byPath;
      var at := Append(path, lines);
      AddOne(old(library), before, kept, config, path, lines, chunks, at);
      byPath, library := byPath[path := at], Added(old(library), path, lines);
      assert Consistent(library, chunks, byPath, config);
      n := |at|;
    }

    // `index` over the files the caller names.
    method Index(paths: seq<string>, disk: string -> Disk) returns (n: nat)
      requires Valid()
      modifies this
      ensures Valid() && library == IndexedAll(old(library), paths, disk, config)
      ensures n == ChunksMade(paths, disk, config)
    {
      n := 0;
      for i := 0 to |paths|
        invariant Valid() && library == IndexedAll(old(library), paths[..i], disk, config)
        invariant n == ChunksMade(paths[..i], disk, config)
      {
        var m := IndexFile(paths[i], disk(paths[i]));
        n := n + m;
        assert paths[..i + 1][..i] == paths[..i];
      }
      assert paths[..|paths|] == paths;
    }

    // `invalidate`.
    method Invalidate(paths: seq<string>, disk: string -> Disk) returns (n: nat)
      requires Valid()
      modifies this
      ensures Valid() && library == Invalidated(old(library), paths, disk, config)
      ensures n == if paths == [] then |old(byPath)| else |paths|
    {
      if paths == [] {
        n := |byPath|;
        chunks, byPath, library := [], map[], Library([], map[]);
        NoPositions(byPath);
        return;
      }
      for i := 0 to |paths|
        invariant Valid() && library == DroppedAll(old(library), paths[..i])
      {
        Drop(paths[i]);
        assert paths[..i + 1][..i] == paths[..i];
      }
      assert paths[..|paths|] == paths;
      Reindex(paths, disk);
      n := |paths|;
    }

    // The files among the paths, indexed one after the other.
    method Reindex(paths: seq<string>, disk: string -> Disk)
      requires Valid()
      modifies this
      ensures Valid() && library == IndexedAll(old(library), FilesAmong(paths, disk), disk, config)
    {
      for i := 0 to |paths|
        invariant Valid() && library == IndexedAll(old(library), FilesAmong(paths[..i], disk), disk, config)
      {
        var d := disk(paths[i]);
        assert paths[..i + 1][..i] == paths[..i];
        ghost var files := FilesAmong(paths[..i], disk);
        if d.FileOnDisk? {
          var _ := IndexFile(paths[i], d);
          assert (files + [paths[i]])[..|files|] == files;
        } else {
          assert files + [] == files;
        }
      }
      assert paths[..|paths|] == paths;
    }
  }
}
