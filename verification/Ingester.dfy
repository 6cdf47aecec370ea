/** Splitting a file into overlapping chunks and storing them
    (src/infrastructure/repo_ingestion/ingester.py). */
module Ingester {
  import opened Wrappers
  import opened Text

  // ---- windows ----

  /** A chunk as the lines it holds, from the first up to but not including `to`. */
  datatype Window = Window(from: nat, to: nat)

  /** How many of a chunk's lines `chunk[-overlap:]` keeps: the last ones; the whole chunk for
      zero; for a negative overlap all but the first ones. */
  function Kept(overlap: int, length: nat): (kept: nat)
    ensures kept <= length
  {
    if overlap > 0 then (if overlap < length then overlap else length)
    else if length + overlap >= 0 then length + overlap
    else 0
  }

  /** Python's `s[start:]`, a negative start counting from the end. */
  function SliceFrom<T>(s: seq<T>, start: int): seq<T>
  {
    if start >= 0 then s[(if start < |s| then start else |s|)..]
    else s[(if |s| + start > 0 then |s| + start else 0)..]
  }

  /** The lines kept are those of the slice. */
  lemma KeptIsTheSlice<T>(chunk: seq<T>, overlap: int)
    ensures SliceFrom(chunk, -overlap) == chunk[|chunk| - Kept(overlap, |chunk|)..]
  {
  }

  function NextStart(w: Window, overlap: int): (start: nat)
    requires w.from <= w.to
    ensures w.from <= start <= w.to
  {
    w.to - Kept(overlap, w.to - w.from)
  }

  function LineSize(line: string): nat
  {
    |line| + 1
  }

  function Size(lines: seq<string>): nat
  {
    if lines == [] then 0 else Size(lines[..|lines| - 1]) + LineSize(lines[|lines| - 1])
  }

  function PreviousEnd(ws: seq<Window>, i: nat): nat
    requires i <= |ws|
  {
    if i == 0 then 0 else ws[i - 1].to
  }

  function StartAfter(ws: seq<Window>, i: nat, overlap: int): nat
    requires i <= |ws| && (i > 0 ==> ws[i - 1].from <= ws[i - 1].to)
  {
    if i == 0 then 0 else NextStart(ws[i - 1], overlap)
  }

  predicate Placed(n: nat, overlap: int, ws: seq<Window>, i: nat)
    requires i < |ws|
  {
    && (i > 0 ==> ws[i - 1].from <= ws[i - 1].to)
    && ws[i].from == StartAfter(ws, i, overlap)
    && PreviousEnd(ws, i) < ws[i].to <= n
    && ws[i].from <= ws[i].to
  }

  /** Each window starts where the overlap puts it and ends later than the one before. */
  predicate Contiguous(n: nat, overlap: int, ws: seq<Window>)
  {
    forall i :: 0 <= i < |ws| ==> Placed(n, overlap, ws, i)
  }

  predicate Covers(n: nat, overlap: int, ws: seq<Window>)
  {
    Contiguous(n, overlap, ws) && ws != [] && ws[|ws| - 1].to == n
  }

  /** The next line does not fit. */
  predicate Full(lines: seq<string>, maxChars: int, w: Window)
  {
    && w.from <= w.to < |lines|
    && Size(lines[w.from..w.to]) + LineSize(lines[w.to]) > maxChars
  }

  /** After its first new line, at `previousEnd`, every line of the chunk did fit. */
  predicate Filled(lines: seq<string>, maxChars: int, w: Window, previousEnd: nat)
    requires w.from <= previousEnd < w.to <= |lines|
  {
    forall k :: previousEnd < k < w.to ==> Size(lines[w.from..k]) + LineSize(lines[k]) <= maxChars
  }

  predicate Grown(lines: seq<string>, maxChars: int, ws: seq<Window>, i: nat)
    requires i < |ws|
  {
    && ws[i].from <= PreviousEnd(ws, i) < ws[i].to <= |lines|
    && Filled(lines, maxChars, ws[i], PreviousEnd(ws, i))
  }

  /** Chunks are as long as they can be: a chunk is closed only when the next line does not
      fit, and goes on as long as it does. */
  predicate Greedy(lines: seq<string>, maxChars: int, ws: seq<Window>)
  {
    && (forall i :: 0 <= i < |ws| - 1 ==> Full(lines, maxChars, ws[i]))
    && (forall i :: 0 <= i < |ws| ==> Grown(lines, maxChars, ws, i))
  }

  /** The conditions leave no choice: they determine the windows. */
  lemma {:induction false} WindowsAreDetermined(lines: seq<string>, maxChars: int, overlap: int,
                                                ws: seq<Window>, vs: seq<Window>)
    requires Covers(|lines|, overlap, ws) && Greedy(lines, maxChars, ws)
    requires Covers(|lines|, overlap, vs) && Greedy(lines, maxChars, vs)
    ensures ws == vs
  {
    SamePrefix(lines, maxChars, overlap, ws, vs, if |ws| < |vs| then |ws| else |vs|);
    OnlyTheLastReachesTheEnd(|lines|, overlap, ws);
    OnlyTheLastReachesTheEnd(|lines|, overlap, vs);
  }

  lemma OnlyTheLastReachesTheEnd(n: nat, overlap: int, ws: seq<Window>)
    requires Contiguous(n, overlap, ws)
    ensures forall i :: 0 <= i < |ws| - 1 ==> ws[i].to < n
  {
    forall i | 0 <= i < |ws| - 1 ensures ws[i].to < n {
      assert Placed(n, overlap, ws, i + 1);
    }
  }

  lemma {:induction false} SamePrefix(lines: seq<string>, maxChars: int, overlap: int,
                                      ws: seq<Window>, vs: seq<Window>, k: nat)
    requires Covers(|lines|, overlap, ws) && Greedy(lines, maxChars, ws)
    requires Covers(|lines|, overlap, vs) && Greedy(lines, maxChars, vs)
    requires k <= |ws| && k <= |vs|
    ensures forall i :: 0 <= i < k ==> ws[i] == vs[i]
  {
    if k > 0 {
      SamePrefix(lines, maxChars, overlap, ws, vs, k - 1);
      NotLonger(lines, maxChars, overlap, ws, vs, k - 1);
      NotLonger(lines, maxChars, overlap, vs, ws, k - 1);
    }
  }

  lemma NotLonger(lines: seq<string>, maxChars: int, overlap: int, ws: seq<Window>, vs: seq<Window>, i: nat)
    requires Covers(|lines|, overlap, ws) && Greedy(lines, maxChars, ws)
    requires Covers(|lines|, overlap, vs) && Greedy(lines, maxChars, vs)
    requires i < |ws| && i < |vs| && forall j :: 0 <= j < i ==> ws[j] == vs[j]
    ensures ws[i].from == vs[i].from && ws[i].to <= vs[i].to
  {
    assert Placed(|lines|, overlap, ws, i) && Placed(|lines|, overlap, vs, i);
    assert Grown(lines, maxChars, ws, i);
    if i < |vs| - 1 {
      assert Full(lines, maxChars, vs[i]);
      assert !(PreviousEnd(ws, i) < vs[i].to < ws[i].to);
    }
  }

  /** Never more chunks than lines. */
  lemma {:induction false} NoMoreChunksThanLines(n: nat, overlap: int, ws: seq<Window>)
    requires Contiguous(n, overlap, ws)
    ensures |ws| <= if ws == [] then 0 else ws[|ws| - 1].to
    ensures |ws| <= n
  {
    if |ws| > 0 {
      assert Placed(n, overlap, ws, |ws| - 1);
      ContiguousPrefix(n, overlap, ws, |ws| - 1);
      NoMoreChunksThanLines(n, overlap, ws[..|ws| - 1]);
    }
  }

  lemma ContiguousPrefix(n: nat, overlap: int, ws: seq<Window>, k: nat)
    requires Contiguous(n, overlap, ws) && k <= |ws|
    ensures Contiguous(n, overlap, ws[..k])
  {
    forall i | 0 <= i < k ensures Placed(n, overlap, ws[..k], i) {
      assert Placed(n, overlap, ws, i);
    }
  }

  /** The chunk is shorter than the limit, or it is the overlap and a single further line. */
  predicate Small(lines: seq<string>, maxChars: int, overlap: int, ws: seq<Window>, i: nat)
    requires i < |ws|
  {
    && ws[i].from < ws[i].to <= |lines|
    && (|| |Join(lines[ws[i].from..ws[i].to], '\n')| < maxChars
        || (ws[i].to == PreviousEnd(ws, i) + 1 && ws[i].to - ws[i].from <= overlap + 1))
  }

  /** With a positive overlap a chunk is shorter than the limit, or it is the overlap and a
      single further line. */
  lemma ChunksAreSmall(lines: seq<string>, maxChars: int, overlap: int, ws: seq<Window>, i: nat)
    requires Contiguous(|lines|, overlap, ws) && Greedy(lines, maxChars, ws) && i < |ws| && overlap > 0
    ensures Small(lines, maxChars, overlap, ws, i)
  {
    var w, last := ws[i], ws[i].to - 1;
    assert Placed(|lines|, overlap, ws, i) && Grown(lines, maxChars, ws, i);
    if last > PreviousEnd(ws, i) {
      OneMoreLine(lines, w.from, last);
      JoinedLength(lines[w.from..w.to]);
    }
  }

  lemma {:induction false} JoinedLength(lines: seq<string>)
    requires lines != []
    ensures |Join(lines, '\n')| + 1 == Size(lines)
  {
    if |lines| > 1 {
      JoinedLength(lines[1..]);
      SizeFromTheFront(lines);
    } else {
      assert Size(lines[..0]) == 0;
    }
  }

  lemma {:induction false} SizeFromTheFront(lines: seq<string>)
    requires lines != []
    ensures Size(lines) == LineSize(lines[0]) + Size(lines[1..])
  {
    if |lines| > 1 {
      SizeFromTheFront(lines[..|lines| - 1]);
      assert lines[..|lines| - 1][1..] == lines[1..][..|lines| - 2];
    }
  }

  lemma OneMoreLine(lines: seq<string>, from: nat, k: nat)
    requires from <= k < |lines|
    ensures Size(lines[from..k + 1]) == Size(lines[from..k]) + LineSize(lines[k])
    ensures lines[from..k + 1] == lines[from..k] + [lines[k]]
  {
    assert lines[from..k + 1][..k - from] == lines[from..k];
  }

  lemma SliceOfSlice(lines: seq<string>, a: nat, b: nat, c: nat)
    requires a <= b <= c <= |lines|
    ensures lines[a..c][b - a..] == lines[b..c]
  {
  }

  /** With overlap zero every chunk starts at the first line, so the last chunk is the whole
      file. */
  lemma {:induction false} ZeroOverlapKeepsEverything(n: nat, ws: seq<Window>, i: nat)
    requires Contiguous(n, 0, ws) && i < |ws|
    ensures ws[i].from == 0
  {
    assert Placed(n, 0, ws, i);
    if i > 0 {
      ZeroOverlapKeepsEverything(n, ws, i - 1);
    }
  }

  /** So with overlap zero the chunks are small exactly when the whole text is shorter than the
      limit, or a single line. */
  lemma ZeroOverlapIsSmallExactly(lines: seq<string>, maxChars: int, ws: seq<Window>)
    requires Covers(|lines|, 0, ws)
    ensures (forall i :: 0 <= i < |ws| ==> Small(lines, maxChars, 0, ws, i))
            <==> |Join(lines, '\n')| < maxChars || |lines| == 1
  {
    var last := |ws| - 1;
    ZeroOverlapKeepsEverything(|lines|, ws, last);
    assert Placed(|lines|, 0, ws, last) && lines[0..|lines|] == lines;
    if Small(lines, maxChars, 0, ws, last) {
      assert |Join(lines, '\n')| < maxChars || |lines| == 1;
    }
    if |Join(lines, '\n')| < maxChars || |lines| == 1 {
      forall i | 0 <= i < |ws| ensures Small(lines, maxChars, 0, ws, i) {
        ZeroOverlapKeepsEverything(|lines|, ws, i);
        assert Placed(|lines|, 0, ws, i);
        PrefixIsShorter(lines, ws[i].to);
      }
    }
  }

  lemma {:induction false} PrefixIsShorter(lines: seq<string>, k: nat)
    requires 0 < k <= |lines|
    ensures |Join(lines[0..k], '\n')| <= |Join(lines, '\n')|
    decreases |lines| - k
  {
    assert lines[0..|lines|] == lines;
    if k < |lines| {
      PrefixIsShorter(lines, k + 1);
      JoinedLength(lines[0..k]);
      JoinedLength(lines[0..k + 1]);
      OneMoreLine(lines, 0, k);
    }
  }

  // ---- chunks ----

  predicate WithinLines(ws: seq<Window>, n: nat)
  {
    forall i :: 0 <= i < |ws| ==> ws[i].from <= ws[i].to <= n
  }

  function Texts(lines: seq<string>, ws: seq<Window>): (texts: seq<string>)
    requires WithinLines(ws, |lines|)
    ensures |texts| == |ws|
    ensures forall i :: 0 <= i < |ws| ==> texts[i] == Join(lines[ws[i].from..ws[i].to], '\n')
  {
    seq(|ws|, i requires 0 <= i < |ws| => Join(lines[ws[i].from..ws[i].to], '\n'))
  }

  function Slices(lines: seq<string>, ws: seq<Window>): (slices: seq<seq<string>>)
    requires WithinLines(ws, |lines|)
    ensures |slices| == |ws|
    ensures forall i :: 0 <= i < |ws| ==> slices[i] == lines[ws[i].from..ws[i].to]
  {
    seq(|ws|, i requires 0 <= i < |ws| => lines[ws[i].from..ws[i].to])
  }

  function LinesOf(chunks: seq<string>): (pieces: seq<seq<string>>)
    ensures |pieces| == |chunks|
    ensures forall i :: 0 <= i < |chunks| ==> pieces[i] == Split(chunks[i], '\n')
  {
    seq(|chunks|, i requires 0 <= i < |chunks| => Split(chunks[i], '\n'))
  }

  /** Undoing the split: of every chunk but the first, the lines kept from the chunk before
      are dropped. */
  function Reassembled(pieces: seq<seq<string>>, overlap: int): seq<string>
  {
    if pieces == [] then []
    else if |pieces| == 1 then pieces[0]
    else Reassembled(pieces[..|pieces| - 1], overlap) + Dropped(pieces[|pieces| - 1], Kept(overlap, |pieces[|pieces| - 2]|))
  }

  function Dropped(lines: seq<string>, k: nat): seq<string>
  {
    if k <= |lines| then lines[k..] else []
  }

  lemma TextOfWindow(content: string, from: nat, to: nat)
    requires from < to <= |Split(content, '\n')|
    ensures Split(Join(Split(content, '\n')[from..to], '\n'), '\n') == Split(content, '\n')[from..to]
  {
    JoinOfSplit(content, '\n');
    SplitOfFreeJoin(Split(content, '\n')[from..to], '\n');
  }

  lemma ContiguousIsWithin(n: nat, overlap: int, ws: seq<Window>)
    requires Contiguous(n, overlap, ws)
    ensures WithinLines(ws, n)
  {
    forall i | 0 <= i < |ws| ensures ws[i].from <= ws[i].to <= n {
      assert Placed(n, overlap, ws, i);
    }
  }

  /** Contiguous windows give the lines back, up to the last one they reach. */
  lemma {:induction false} ReassembledPrefix(lines: seq<string>, overlap: int, ws: seq<Window>)
    requires Contiguous(|lines|, overlap, ws) && ws != []
    ensures WithinLines(ws, |lines|)
    ensures Reassembled(Slices(lines, ws), overlap) == lines[..ws[|ws| - 1].to]
  {
    ContiguousIsWithin(|lines|, overlap, ws);
    var n := |ws|;
    WindowStartsBefore(|lines|, overlap, ws, n - 1);
    if n > 1 {
      WindowStartsBefore(|lines|, overlap, ws, n - 2);
      ContiguousPrefix(|lines|, overlap, ws, n - 1);
      ReassembledPrefix(lines, overlap, ws[..n - 1]);
      assert Slices(lines, ws)[..n - 1] == Slices(lines, ws[..n - 1]);
      assert Placed(|lines|, overlap, ws, n - 1);
      DroppedIsNew(lines, overlap, ws[n - 2], ws[n - 1]);
    }
  }

  lemma DroppedIsNew(lines: seq<string>, overlap: int, v: Window, w: Window)
    requires v.from < v.to < w.to <= |lines| && w.from == NextStart(v, overlap)
    ensures lines[..v.to] + Dropped(lines[w.from..w.to], Kept(overlap, |lines[v.from..v.to]|)) == lines[..w.to]
  {
    SliceOfSlice(lines, w.from, v.to, w.to);
  }

  lemma WindowStartsBefore(n: nat, overlap: int, ws: seq<Window>, i: nat)
    requires Contiguous(n, overlap, ws) && i < |ws|
    ensures ws[i].from <= PreviousEnd(ws, i) < ws[i].to <= n
  {
    assert Placed(n, overlap, ws, i);
  }

  /** The texts of contiguous windows over all lines hold the content. */
  lemma CoverGivesContent(content: string, overlap: int, ws: seq<Window>)
    requires Covers(|Split(content, '\n')|, overlap, ws)
    ensures WithinLines(ws, |Split(content, '\n')|)
    ensures Join(Reassembled(LinesOf(Texts(Split(content, '\n'), ws)), overlap), '\n') == content
  {
    var lines := Split(content, '\n');
    ReassembledPrefix(lines, overlap, ws);
    forall i | 0 <= i < |ws| ensures LinesOf(Texts(lines, ws))[i] == Slices(lines, ws)[i] {
      WindowStartsBefore(|lines|, overlap, ws, i);
      TextOfWindow(content, ws[i].from, ws[i].to);
    }
    assert LinesOf(Texts(lines, ws)) == Slices(lines, ws);
    JoinOfSplit(content, '\n');
    assert lines[..|lines|] == lines;
  }

  /** What a file's chunks are: a short file whole, otherwise the texts of the windows. */
  ghost predicate ChunksOf(content: string, maxChars: int, overlap: int, chunks: seq<string>)
  {
    if |content| <= maxChars then chunks == [content]
    else exists ws :: IsChunking(Split(content, '\n'), maxChars, overlap, ws) && chunks == Texts(Split(content, '\n'), ws)
  }

  predicate IsChunking(lines: seq<string>, maxChars: int, overlap: int, ws: seq<Window>)
  {
    Covers(|lines|, overlap, ws) && Greedy(lines, maxChars, ws) && WithinLines(ws, |lines|)
  }

  /** `_chunk_content`. */
  method ChunkContent(content: string, maxChars: int, overlap: int) returns (chunks: seq<string>, ghost ws: seq<Window>)
    ensures ChunksOf(content, maxChars, overlap, chunks)
    ensures Covers(|Split(content, '\n')|, overlap, ws)
    ensures |content| > maxChars ==> Greedy(Split(content, '\n'), maxChars, ws)
    ensures WithinLines(ws, |Split(content, '\n')|) && chunks == Texts(Split(content, '\n'), ws)
    ensures Join(Reassembled(LinesOf(chunks), overlap), '\n') == content
    ensures 1 <= |chunks| <= |Split(content, '\n')|
  {
    var lines := Split(content, '\n');
    if |content| <= maxChars {
      JoinOfSplit(content, '\n');
      ws := [Window(0, |lines|)];
      assert lines[0..|lines|] == lines;
      CoverGivesContent(content, overlap, ws);
      return [content], ws;
    }
    chunks, ws := ChunkLines(lines, maxChars, overlap);
    assert IsChunking(lines, maxChars, overlap, ws);
    CoverGivesContent(content, overlap, ws);
    NoMoreChunksThanLines(|lines|, overlap, ws);
  }

  /** The loop over the lines. */
  method ChunkLines(lines: seq<string>, maxChars: int, overlap: int) returns (chunks: seq<string>, ghost ws: seq<Window>)
    requires lines != []
    ensures Covers(|lines|, overlap, ws) && Greedy(lines, maxChars, ws)
    ensures WithinLines(ws, |lines|) && chunks == Texts(lines, ws)
  {
    chunks, ws := [], [];
    var current, size := [], 0;
    ghost var from: nat := 0;
    for i := 0 to |lines|
      invariant Filling(lines, maxChars, overlap, chunks, ws, from, i, current, size)
    {
      chunks, current, size, ws, from := TakeLine(lines, maxChars, overlap, chunks, current, size, i, ws, from);
    }
    CloseLast(lines, maxChars, overlap, ws, from);
    chunks := chunks + [Join(current, '\n')];
    ws := ws + [Window(from, |lines|)];
  }

  /** The state of the loop before line i. */
  ghost predicate Filling(lines: seq<string>, maxChars: int, overlap: int, chunks: seq<string>, ws: seq<Window>, from: nat,
                          i: nat, current: seq<string>, size: nat)
  {
    && Closed(lines, maxChars, overlap, ws) && chunks == Texts(lines, ws)
    && Opened(lines, maxChars, overlap, ws, from, i)
    && current == lines[from..i] && size == Size(current)
  }

  /** One round of the loop. */
  method TakeLine(lines: seq<string>, maxChars: int, overlap: int, chunks: seq<string>, chunk: seq<string>, sum: nat, i: nat,
                  ghost ws: seq<Window>, ghost from: nat)
    returns (saved: seq<string>, current: seq<string>, size: nat, ghost vs: seq<Window>, ghost start: nat)
    requires i < |lines| && Filling(lines, maxChars, overlap, chunks, ws, from, i, chunk, sum)
    ensures Filling(lines, maxChars, overlap, saved, vs, start, i + 1, current, size)
  {
    saved, current, size, vs, start := chunks, chunk, sum, ws, from;
    var lineSize := LineSize(lines[i]);
    if size + lineSize > maxChars && current != [] {
      saved, current, size, vs, start := CloseChunk(lines, maxChars, overlap, chunks, chunk, i, ws, from);
    } else {
      LineAdded(lines, maxChars, overlap, ws, from, i);
    }
    OneMoreLine(lines, start, i);
    current := current + [lines[i]];
    size := size + lineSize;
  }

  /** The current chunk is saved, and its last lines begin the next one. */
  method CloseChunk(lines: seq<string>, maxChars: int, overlap: int, chunks: seq<string>, chunk: seq<string>, i: nat,
                    ghost ws: seq<Window>, ghost from: nat)
    returns (saved: seq<string>, current: seq<string>, size: nat, ghost vs: seq<Window>, ghost start: nat)
    requires Closed(lines, maxChars, overlap, ws) && Opened(lines, maxChars, overlap, ws, from, i)
    requires chunks == Texts(lines, ws) && from < i < |lines| && chunk == lines[from..i]
    requires Size(chunk) + LineSize(lines[i]) > maxChars
    ensures vs == ws + [Window(from, i)] && Closed(lines, maxChars, overlap, vs)
    ensures saved == Texts(lines, vs)
    ensures Opened(lines, maxChars, overlap, vs, start, i + 1)
    ensures from <= start <= i && start == NextStart(Window(from, i), overlap)
    ensures current == lines[start..i] && size == Size(current)
  {
    CloseWindow(lines, maxChars, overlap, ws, from, i);
    saved := chunks + [Join(chunk, '\n')];
    vs := ws + [Window(from, i)];
    start := NextStart(Window(from, i), overlap);
    LineBegins(lines, maxChars, overlap, ws, Window(from, i));
    current, size := CarryOver(lines, from, i, overlap, chunk);
  }

  /** `current_chunk[-overlap:]` and its size. */
  method CarryOver(lines: seq<string>, ghost from: nat, ghost to: nat, overlap: int, chunk: seq<string>)
    returns (current: seq<string>, size: nat)
    requires from <= to <= |lines| && chunk == lines[from..to]
    ensures current == lines[NextStart(Window(from, to), overlap)..to] && size == Size(current)
  {
    SliceOfSlice(lines, from, NextStart(Window(from, to), overlap), to);
    current := chunk[|chunk| - Kept(overlap, |chunk|)..];
    size := SizeOf(current);
  }

  method SizeOf(lines: seq<string>) returns (size: nat)
    ensures size == Size(lines)
  {
    size := 0;
    for k := 0 to |lines|
      invariant size == Size(lines[..k])
    {
      assert lines[..k + 1][..k] == lines[..k];
      size := size + LineSize(lines[k]);
    }
    assert lines[..|lines|] == lines;
  }

  // ---- ingesting a file ----

  datatype Document = Document(content: string, filePath: string, chunkIndex: nat, totalChunks: nat)

  datatype IngestionError = OutsideRepo | TooLarge | Unreadable | IndexFailed(docId: string)

  function DocId(path: string, i: nat): string
  {
    path + ":" + Decimal(i)
  }

  lemma {:induction false} DecimalHasNoColon(n: nat)
    ensures ':' !in Decimal(n)
  {
    if n >= 10 {
      DecimalHasNoColon(n / 10);
    }
  }

  /** Documents of different files, or different chunks of one, have different ids, also when
      a path contains colons. */
  lemma DocIdsTellApart(p: string, i: nat, q: string, j: nat)
    ensures DocId(p, i) == DocId(q, j) <==> p == q && i == j
  {
    DecimalHasNoColon(i);
    DecimalHasNoColon(j);
    DecimalRoundTrip(i);
    DecimalRoundTrip(j);
    var s, t := DocId(p, i), DocId(q, j);
    assert s[|p|] == ':' && t[|q|] == ':';
    assert s[|p| + 1..] == Decimal(i) && t[|q| + 1..] == Decimal(j);
    assert s[..|p|] == p && t[..|q|] == q;
    if |p| < |q| <= |s| - 1 {
      assert s[|q|] == Decimal(i)[|q| - |p| - 1];
    } else if |q| < |p| <= |t| - 1 {
      assert t[|p|] == Decimal(j)[|p| - |q| - 1];
    }
  }

  function DocumentOf(path: string, chunks: seq<string>, i: nat): Document
    requires i < |chunks|
  {
    Document(chunks[i], path, i, |chunks|)
  }

  /** The store after the first k chunks have gone in: their documents, and nothing else
      changed. */
  ghost predicate Indexed(before: map<string, Document>, after: map<string, Document>, path: string,
                          chunks: seq<string>, k: nat)
  {
    && k <= |chunks|
    && (forall i :: 0 <= i < k ==> DocId(path, i) in after && after[DocId(path, i)] == DocumentOf(path, chunks, i))
    && (forall id :: (forall i :: 0 <= i < k ==> id != DocId(path, i)) ==>
          (id in after <==> id in before) && (id in before ==> after[id] == before[id]))
  }

  lemma IndexedOneMore(before: map<string, Document>, after: map<string, Document>, path: string,
                       chunks: seq<string>, k: nat)
    requires Indexed(before, after, path, chunks, k) && k < |chunks|
    ensures Indexed(before, after[DocId(path, k) := DocumentOf(path, chunks, k)], path, chunks, k + 1)
  {
    forall i | 0 <= i < k ensures DocId(path, i) != DocId(path, k) {
      DocIdsTellApart(path, i, path, k);
    }
  }

  /** Every chunk under the path, a colon and its number, with its place in the file. */
  predicate StoredAs(store: map<string, Document>, path: string, chunks: seq<string>)
  {
    forall i :: 0 <= i < |chunks| ==>
      path + ":" + Decimal(i) in store && store[path + ":" + Decimal(i)] == Document(chunks[i], path, i, |chunks|)
  }

  lemma IndexedIsStored(before: map<string, Document>, after: map<string, Document>, path: string, chunks: seq<string>)
    requires Indexed(before, after, path, chunks, |chunks|)
    ensures StoredAs(after, path, chunks)
  {
    forall i | 0 <= i < |chunks|
      ensures path + ":" + Decimal(i) in after && after[path + ":" + Decimal(i)] == Document(chunks[i], path, i, |chunks|) {
      assert DocId(path, i) in after && after[DocId(path, i)] == DocumentOf(path, chunks, i);
    }
  }

  /** After an ingest the store holds exactly the file's chunks if and only if it held no
      document of the file beyond them before. */
  lemma HoldsExactlyTheFile(before: map<string, Document>, after: map<string, Document>, path: string, chunks: seq<string>)
    requires Indexed(before, after, path, chunks, |chunks|)
    ensures (forall k: nat :: DocId(path, k) in after <==> k < |chunks|)
            <==> (forall k: nat :: |chunks| <= k ==> DocId(path, k) !in before)
  {
    forall k: nat | |chunks| <= k ensures DocId(path, k) in after <==> DocId(path, k) in before {
      Beyond(path, |chunks|, k);
    }
  }

  lemma Beyond(path: string, total: nat, k: nat)
    requires total <= k
    ensures forall i :: 0 <= i < total ==> DocId(path, k) != DocId(path, i)
  {
    forall i | 0 <= i < total ensures DocId(path, k) != DocId(path, i) {
      DocIdsTellApart(path, k, path, i);
    }
  }

  /** A file that has shrunk to fewer chunks leaves the documents of its former last chunks,
      with their former contents. */
  lemma ShrunkenFileLeavesDocuments(start: map<string, Document>, before: map<string, Document>, after: map<string, Document>,
                                    path: string, longer: seq<string>, shorter: seq<string>, k: nat)
    requires Indexed(start, before, path, longer, |longer|) && Indexed(before, after, path, shorter, |shorter|)
    requires |shorter| <= k < |longer|
    ensures DocId(path, k) in after && after[DocId(path, k)] == DocumentOf(path, longer, k)
  {
    Beyond(path, |shorter|, k);
  }

  /** Such a file: with a limit of one character, two lines are two chunks, and one of them
      alone is one. When the second line goes, its chunk stays. */
  lemma SecondLineStays(path: string, before: map<string, Document>, after: map<string, Document>,
                        longer: seq<string>, shorter: seq<string>)
    requires ChunksOf("a\nb", 1, 1, longer) && Indexed(map[], before, path, longer, |longer|)
    requires ChunksOf("a", 1, 1, shorter) && Indexed(before, after, path, shorter, |shorter|)
    ensures |longer| == 2 && |shorter| == 1
    ensures DocId(path, 1) in after && after[DocId(path, 1)] == DocumentOf(path, longer, 1)
    ensures !(forall k: nat :: DocId(path, k) in after <==> k < |shorter|)
  {
    TwoLinesTwoChunks(longer, shorter);
    ShrunkenFileLeavesDocuments(map[], before, after, path, longer, shorter, 1);
  }

  lemma TwoLinesTwoChunks(chunks: seq<string>, shorter: seq<string>)
    requires ChunksOf("a\nb", 1, 1, chunks) && ChunksOf("a", 1, 1, shorter)
    ensures |chunks| == 2 && |shorter| == 1
  {
    SplitWhole("b", '\n');
    SplitPrefix("a", "b", '\n');
    assert "a\nb" == "a" + ['\n'] + "b";
    var lines := Split("a\nb", '\n');
    assert lines == ["a", "b"];
    var ws: seq<Window> :| IsChunking(lines, 1, 1, ws) && chunks == Texts(lines, ws);
    NoMoreChunksThanLines(|lines|, 1, ws);
    assert Placed(|lines|, 1, ws, 0) && Grown(lines, 1, ws, 0);
    assert Size(lines[0..1]) + LineSize(lines[1]) > 1;
    assert ws[0].to != 2;
  }

  class RepoIngester {
    const maxChunkSize: int
    const overlap: int
    var store: map<string, Document>

    constructor (maxChunkSize: int, overlap: int)
      ensures this.maxChunkSize == maxChunkSize && this.overlap == overlap && store == map[]
    {
      this.maxChunkSize, this.overlap, store := maxChunkSize, overlap, map[];
    }

    /** `ingest_file`: `accepts` says of each chunk whether the store takes it. When it
        refuses one, the chunks before it stay. Documents of an earlier, longer version of
        the file beyond the new number of chunks stay as well. */
    method IngestFile(path: string, inside: bool, sizeAllowed: bool, content: Option<string>, accepts: nat -> bool)
      returns (r: Result<seq<string>, IngestionError>, ghost chunks: seq<string>)
      modifies this`store
      ensures r.Err? && !r.error.IndexFailed? <==> !inside || !sizeAllowed || content.None?
      ensures !inside ==> r == Err(OutsideRepo)
      ensures inside && !sizeAllowed ==> r == Err(TooLarge)
      ensures r.Err? && !r.error.IndexFailed? ==> store == old(store)
      ensures content.Some? ==> Join(Reassembled(LinesOf(chunks), overlap), '\n') == content.value
      ensures inside && sizeAllowed && content.Some? ==> ChunksOf(content.value, maxChunkSize, overlap, chunks)
      ensures r.Ok? ==>
        && |r.value| == |chunks| > 0
        && (forall i :: 0 <= i < |chunks| ==> r.value[i] == DocId(path, i) && accepts(i))
        && Indexed(old(store), store, path, chunks, |chunks|)
        && StoredAs(store, path, chunks)
      ensures r.Err? && r.error.IndexFailed? ==> exists k ::
        0 <= k < |chunks| && r.error.docId == DocId(path, k) && !accepts(k) && Indexed(old(store), store, path, chunks, k)
    {
      chunks := if content.Some? then [content.value] else [];
      if content.Some? {
        ReassembledWhole(content.value, overlap);
      }
      if !inside {
        return Err(OutsideRepo), chunks;
      }
      if !sizeAllowed {
        return Err(TooLarge), chunks;
      }
      if content.None? {
        return Err(Unreadable), chunks;
      }
      var pieces, ws := ChunkContent(content.value, maxChunkSize, overlap);
      chunks := pieces;
      r := StoreChunks(path, pieces, accepts);
    }

    /** The loop over the chunks. */
    method StoreChunks(path: string, pieces: seq<string>, accepts: nat -> bool) returns (r: Result<seq<string>, IngestionError>)
      modifies this`store
      ensures r.Err? ==> r.error.IndexFailed?
      ensures r.Ok? ==>
        && |r.value| == |pieces| && (forall i :: 0 <= i < |pieces| ==> r.value[i] == DocId(path, i) && accepts(i))
        && Indexed(old(store), store, path, pieces, |pieces|) && StoredAs(store, path, pieces)
      ensures r.Err? ==> exists k ::
        0 <= k < |pieces| && r.error.docId == DocId(path, k) && !accepts(k) && Indexed(old(store), store, path, pieces, k)
    {
      var docIds := [];
      for k := 0 to |pieces|
        invariant |docIds| == k && forall i :: 0 <= i < k ==> docIds[i] == DocId(path, i) && accepts(i)
        invariant Indexed(old(store), store, path, pieces, k)
      {
        if !accepts(k) {
          return Err(IndexFailed(DocId(path, k)));
        }
        IndexedOneMore(old(store), store, path, pieces, k);
        store := store[DocId(path, k) := DocumentOf(path, pieces, k)];
        docIds := docIds + [DocId(path, k)];
      }
      IndexedIsStored(old(store), store, path, pieces);
      return Ok(docIds);
    }
  }

  lemma ReassembledWhole(content: string, overlap: int)
    ensures Join(Reassembled(LinesOf([content]), overlap), '\n') == content
  {
    JoinOfSplit(content, '\n');
  }

  // ---- what the loop over the lines keeps ----

  /** The chunks closed so far. */
  predicate Closed(lines: seq<string>, maxChars: int, overlap: int, ws: seq<Window>)
  {
    && Contiguous(|lines|, overlap, ws) && WithinLines(ws, |lines|)
    && Greedy(lines, maxChars, ws)
    && (ws != [] ==> Full(lines, maxChars, ws[|ws| - 1]))
  }

  /** The chunk being filled, before line i. */
  predicate Opened(lines: seq<string>, maxChars: int, overlap: int, ws: seq<Window>, from: nat, i: nat)
  {
    var end := PreviousEnd(ws, |ws|);
    && i <= |lines|
    && (if ws == [] then from == 0 else ws[|ws| - 1].from <= end && from == NextStart(ws[|ws| - 1], overlap))
    && from <= end <= i && (i > 0 ==> end < i)
    && (i > 0 ==> Filled(lines, maxChars, Window(from, i), end))
  }

  lemma CloseWindow(lines: seq<string>, maxChars: int, overlap: int, ws: seq<Window>, from: nat, i: nat)
    requires Closed(lines, maxChars, overlap, ws) && Opened(lines, maxChars, overlap, ws, from, i)
    requires i < |lines| && from < i && Size(lines[from..i]) + LineSize(lines[i]) > maxChars
    ensures Closed(lines, maxChars, overlap, ws + [Window(from, i)])
  {
    ExtendedContiguous(|lines|, overlap, ws, Window(from, i));
    ExtendedGreedy(lines, maxChars, ws, Window(from, i));
  }

  lemma CloseLast(lines: seq<string>, maxChars: int, overlap: int, ws: seq<Window>, from: nat)
    requires Closed(lines, maxChars, overlap, ws) && Opened(lines, maxChars, overlap, ws, from, |lines|)
    requires lines != []
    ensures Covers(|lines|, overlap, ws + [Window(from, |lines|)])
    ensures Greedy(lines, maxChars, ws + [Window(from, |lines|)])
    ensures WithinLines(ws + [Window(from, |lines|)], |lines|)
  {
    ExtendedContiguous(|lines|, overlap, ws, Window(from, |lines|));
    ExtendedGreedy(lines, maxChars, ws, Window(from, |lines|));
  }

  lemma ExtendedContiguous(n: nat, overlap: int, ws: seq<Window>, w: Window)
    requires Contiguous(n, overlap, ws)
    requires ws != [] ==> ws[|ws| - 1].from <= ws[|ws| - 1].to
    requires w.from == StartAfter(ws, |ws|, overlap) && w.from <= w.to && PreviousEnd(ws, |ws|) < w.to <= n
    ensures Contiguous(n, overlap, ws + [w]) && WithinLines(ws + [w], n)
  {
    var vs := ws + [w];
    forall i | 0 <= i < |vs| ensures Placed(n, overlap, vs, i) {
      if i < |ws| {
        assert Placed(n, overlap, ws, i);
      }
    }
    ContiguousIsWithin(n, overlap, vs);
  }

  lemma ExtendedGreedy(lines: seq<string>, maxChars: int, ws: seq<Window>, w: Window)
    requires Greedy(lines, maxChars, ws) && (ws != [] ==> Full(lines, maxChars, ws[|ws| - 1]))
    requires w.from <= PreviousEnd(ws, |ws|) < w.to <= |lines| && Filled(lines, maxChars, w, PreviousEnd(ws, |ws|))
    ensures Greedy(lines, maxChars, ws + [w])
  {
    var vs := ws + [w];
    forall i | 0 <= i < |vs| ensures Grown(lines, maxChars, vs, i) {
      if i < |ws| {
        assert Grown(lines, maxChars, ws, i);
      }
    }
  }

  lemma LineAdded(lines: seq<string>, maxChars: int, overlap: int, ws: seq<Window>, from: nat, i: nat)
    requires Opened(lines, maxChars, overlap, ws, from, i) && i < |lines|
    requires from < i ==> Size(lines[from..i]) + LineSize(lines[i]) <= maxChars
    ensures Opened(lines, maxChars, overlap, ws, from, i + 1)
  {
  }

  lemma LineBegins(lines: seq<string>, maxChars: int, overlap: int, ws: seq<Window>, w: Window)
    requires w.from <= w.to < |lines|
    ensures Opened(lines, maxChars, overlap, ws + [w], NextStart(w, overlap), w.to + 1)
  {
  }
}
