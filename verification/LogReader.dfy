/** The log page reader: it walks the log file backwards one byte at a time, collects the
    lines of one page, newest first, and reverses them in place. */
module LogReader {
  import opened Lists
  import opened Wrappers

  newtype Byte = x: int | 0 <= x < 256
  type Bytes = seq<Byte>

  const NEWLINE: Byte := 10
  const INT64_MAX := 0x7FFF_FFFF_FFFF_FFFF

  /** A product of two 64-bit integers wraps around. */
  function Wrapped(x: int): int {
    if -INT64_MAX - 1 <= x <= INT64_MAX then x
    else (x + INT64_MAX + 1) % 0x1_0000_0000_0000_0000 - INT64_MAX - 1
  }

  /** What a product wraps around to is in range, and differs from it by a multiple of 2^64. */
  lemma WrappedIs(x: int, laps: int, w: int)
    requires x == w + laps * 0x1_0000_0000_0000_0000 && -INT64_MAX - 1 <= w <= INT64_MAX
    ensures Wrapped(x) == w
  {
    assert (x + INT64_MAX + 1) / 0x1_0000_0000_0000_0000 == laps;
  }

  // ---------- lines ----------

  /** The file without its last newline. */
  function Body(file: Bytes): Bytes {
    if file != [] && file[|file| - 1] == NEWLINE then file[..|file| - 1] else file
  }

  /** The first newline at or after position i, or the end. */
  function NextNewline(body: Bytes, i: nat): (e: nat)
    requires i <= |body|
    ensures i <= e <= |body| && (e < |body| ==> body[e] == NEWLINE)
    ensures forall j :: i <= j < e ==> body[j] != NEWLINE
    decreases |body| - i
  {
    if i == |body| || body[i] == NEWLINE then i else NextNewline(body, i + 1)
  }

  /** The lines of the body: each one but perhaps the first is led by its newline. */
  function Lines(body: Bytes): seq<Bytes>
    decreases |body|
  {
    if body == [] then []
    else
      var e := NextNewline(body, 1);
      [body[..e]] + Lines(body[e..])
  }

  function Joined(lines: seq<Bytes>): Bytes {
    if lines == [] then [] else lines[0] + Joined(lines[1..])
  }

  /** The lines cut the body exactly before every newline except one at its very start. */
  predicate CutsAtNewlines(lines: seq<Bytes>) {
    && (forall i :: 0 <= i < |lines| ==> lines[i] != [])
    && (forall i, j :: 0 <= i < |lines| && 0 < j < |lines[i]| ==> lines[i][j] != NEWLINE)
    && (forall i :: 0 < i < |lines| ==> lines[i] != [] && lines[i][0] == NEWLINE)
  }

  lemma CutGrows(line: Bytes, lines: seq<Bytes>)
    requires CutsAtNewlines(lines) && line != [] && forall j :: 0 < j < |line| ==> line[j] != NEWLINE
    requires lines != [] ==> lines[0][0] == NEWLINE
    ensures CutsAtNewlines([line] + lines)
  {
  }

  lemma {:induction false} LinesAreACut(body: Bytes)
    ensures Joined(Lines(body)) == body && CutsAtNewlines(Lines(body))
    decreases |body|
  {
    if body != [] {
      var e := NextNewline(body, 1);
      var rest := body[e..];
      LinesAreACut(rest);
      assert body == body[..e] + rest;
      CutGrows(body[..e], Lines(rest));
    }
  }

  lemma {:induction false} LineCountBound(lines: seq<Bytes>)
    requires CutsAtNewlines(lines)
    ensures |lines| <= |Joined(lines)|
  {
    if lines != [] {
      LineCountBound(lines[1..]);
    }
  }

  /** There is only one such way to cut a text. */
  lemma {:induction false} CutIsUnique(lines: seq<Bytes>)
    requires CutsAtNewlines(lines)
    ensures Lines(Joined(lines)) == lines
    decreases |lines|
  {
    if lines != [] {
      var body, first, rest := Joined(lines), lines[0], Joined(lines[1..]);
      CutIsUnique(lines[1..]);
      assert body[..|first|] == first && body[|first|..] == rest;
      LineCountBound(lines[1..]);
      if rest != [] {
        assert lines[1..] != [] && rest == lines[1..][0] + Joined(lines[1..][1..]);
        assert body[|first|] == NEWLINE;
      }
      assert forall j :: 0 < j < |first| ==> body[j] == first[j];
      var e := NextNewline(body, 1);
      assert e == |first|;
    }
  }

  lemma {:induction false} JoinedConcat(a: seq<Bytes>, b: seq<Bytes>)
    ensures Joined(a + b) == Joined(a) + Joined(b)
  {
    if a == [] {
      assert a + b == b;
    } else {
      assert (a + b)[1..] == a[1..] + b;
      JoinedConcat(a[1..], b);
    }
  }

  /** The scan found the start of the line that ends where the lines behind it start. */
  lemma LineFound(body: Bytes, pos: nat, end: nat)
    requires pos < end <= |body| && (end < |body| ==> body[end] == NEWLINE)
    requires forall j :: pos < j < end ==> body[j] != NEWLINE
    ensures Lines(body[pos..]) == [body[pos..end]] + Lines(body[end..])
  {
    var rest := body[pos..];
    var e := NextNewline(rest, 1);
    assert forall j :: 0 < j < end - pos ==> rest[j] == body[pos + j];
    if end < |body| {
      assert rest[end - pos] == body[end];
    }
    assert e == end - pos;
    assert rest[..e] == body[pos..end] && rest[e..] == body[end..];
  }

  // ---------- pages ----------

  /** The lines a page shows: perPage of them, counted from the newest after the skipped ones. */
  function Slice(lines: seq<Bytes>, skip: int, perPage: nat): seq<Bytes> {
    var end := Max(0, |lines| - Max(0, skip));
    lines[Max(0, end - perPage)..end]
  }

  /** What a request for a page returns, for every page number and page size. A size of 0
      never matches the number of collected lines once a line was found, so it gives nothing
      or, when the first byte looked at starts a line, the whole file. */
  function LogPage(body: Bytes, page: nat, perPage: nat): seq<Bytes>
    requires body != []
  {
    PageAfter(body, Wrapped(page * perPage), perPage)
  }

  /** The page behind some newest lines. */
  function PageAfter(body: Bytes, skip: int, perPage: nat): seq<Bytes>
    requires body != []
  {
    if perPage > 0 then Slice(Lines(body), skip, perPage)
    else if |body| == 1 || body[|body| - 1] == NEWLINE then Lines(body)
    else []
  }

  /** A page of size 0 is the whole text if the last byte starts a line, that is, is a newline or the only byte;
      otherwise it is empty. */
  lemma ZeroSizePage(body: Bytes, page: nat)
    requires body != []
    ensures var shown := LogPage(body, page, 0);
            if |body| == 1 || body[|body| - 1] == NEWLINE then shown == Lines(body) && Joined(shown) == body
            else shown == []
  {
    LinesAreACut(body);
    assert page * 0 == 0;
  }

  lemma SliceOfPage(lines: seq<Bytes>, skip: nat, perPage: nat)
    requires skip <= INT64_MAX
    ensures Slice(lines, Wrapped(skip), perPage) ==
            lines[Max(0, |lines| - (skip + perPage))..Max(0, |lines| - skip)]
  {
    assert Wrapped(skip) == skip;
  }

  lemma Distribute(a: int, b: int)
    ensures (a + 1) * b == a * b + b
  {
  }

  /** Page p of k lines is lines k-(p+1)*perPage up to k-p*perPage, clipped at 0. */
  function IntendedPage(lines: seq<Bytes>, page: nat, perPage: nat): seq<Bytes> {
    Distribute(page, perPage);
    lines[Max(0, |lines| - (page + 1) * perPage)..Max(0, |lines| - page * perPage)]
  }

  /** As long as the product fits the reader returns the intended page. */
  lemma PageIsSlice(body: Bytes, page: nat, perPage: nat)
    requires body != [] && perPage > 0 && page * perPage <= INT64_MAX
    ensures LogPage(body, page, perPage) == IntendedPage(Lines(body), page, perPage)
  {
    SliceOfPage(Lines(body), page * perPage, perPage);
    Distribute(page, perPage);
  }

  lemma EmptySliceIff(lines: seq<Bytes>, skip: int, perPage: nat)
    requires lines != [] && perPage > 0
    ensures Slice(lines, skip, perPage) == [] <==> skip >= |lines|
  {
  }

  lemma SomeLine(body: Bytes)
    requires body != []
    ensures 0 < |Lines(body)| <= |body|
  {
    LinesAreACut(body);
    LineCountBound(Lines(body));
    assert Joined(Lines(body)) != [];
  }

  /** For a file of a size that fits, the reader returns the intended page exactly if the product of
      page and page size fits, or wraps around to no less than the number of lines. */
  lemma PageIsSliceIff(body: Bytes, page: nat, perPage: nat)
    requires body != [] && perPage > 0 && |body| <= INT64_MAX
    ensures LogPage(body, page, perPage) == IntendedPage(Lines(body), page, perPage)
            <==> page * perPage <= INT64_MAX || Wrapped(page * perPage) >= |Lines(body)|
  {
    SomeLine(body);
    if page * perPage <= INT64_MAX {
      PageIsSlice(body, page, perPage);
    } else {
      Distribute(page, perPage);
      EmptySliceIff(Lines(body), Wrapped(page * perPage), perPage);
    }
  }

  /** A page number whose product wraps around to 0 shows the newest page, the next one the page after that. */
  lemma WrappedPagesStartOver(body: Bytes)
    requires body != []
    ensures LogPage(body, 0x4000_0000_0000_0000, 4) == LogPage(body, 0, 4)
    ensures LogPage(body, 0x4000_0000_0000_0001, 4) == LogPage(body, 1, 4)
  {
    assert Wrapped(0x4000_0000_0000_0000 * 4) == 0;
    assert Wrapped(0x4000_0000_0000_0001 * 4) == 4;
  }

  /** Pages last, last-1, ..., 0, joined in this order. */
  function PagesJoined(body: Bytes, perPage: nat, last: nat): Bytes
    requires body != []
  {
    Joined(LogPage(body, last, perPage)) + if last == 0 then [] else PagesJoined(body, perPage, last - 1)
  }

  /** The number of lines newer than a page. */
  function Newer(page: nat, perPage: nat): nat {
    if page == 0 then 0 else Newer(page - 1, perPage) + perPage
  }

  lemma {:induction false} NewerIsProduct(page: nat, perPage: nat)
    ensures Newer(page, perPage) == page * perPage
  {
    if page > 0 {
      NewerIsProduct(page - 1, perPage);
      Distribute(page - 1, perPage);
    }
  }

  function SlicesJoined(lines: seq<Bytes>, perPage: nat, last: nat): Bytes {
    Telescope(SliceTexts(lines, perPage), perPage, last)
  }

  /** The texts of the slices, by the number of newer lines. */
  function SliceTexts(lines: seq<Bytes>, perPage: nat): nat -> Bytes {
    (skip: nat) => Joined(Slice(lines, skip, perPage))
  }

  function Telescope(texts: nat -> Bytes, perPage: nat, last: nat): Bytes {
    texts(Newer(last, perPage)) + if last == 0 then [] else Telescope(texts, perPage, last - 1)
  }

  lemma {:induction false} Telescoping(texts: nat -> Bytes, newest: nat -> Bytes, perPage: nat, last: nat)
    requires newest(0) == [] && forall skip: nat :: newest(skip + perPage) == texts(skip) + newest(skip)
    ensures Telescope(texts, perPage, last) == newest(Newer(last, perPage) + perPage)
  {
    assert newest(Newer(last, perPage) + perPage) == texts(Newer(last, perPage)) + newest(Newer(last, perPage));
    if last > 0 {
      Telescoping(texts, newest, perPage, last - 1);
    }
  }

  /** The text that the newest lines make up, by their number. */
  function NewestTexts(lines: seq<Bytes>): nat -> Bytes {
    (n: nat) => Joined(lines[Max(0, |lines| - n)..])
  }

  lemma NothingIsNewest(lines: seq<Bytes>, none: nat)
    requires none == 0
    ensures NewestTexts(lines)(none) == []
  {
    var rest := lines[Max(0, |lines| - none)..];
    assert NewestTexts(lines)(none) == Joined(rest);
    assert rest == [];
  }

  lemma SliceExtends(lines: seq<Bytes>, perPage: nat, skip: nat)
    ensures NewestTexts(lines)(skip + perPage) == SliceTexts(lines, perPage)(skip) + NewestTexts(lines)(skip)
  {
    var from, to := Max(0, |lines| - (skip + perPage)), Max(0, |lines| - skip);
    SuffixJoined(lines, from, to);
    assert Slice(lines, skip, perPage) == lines[from..to];
  }

  lemma SlicesAreASuffix(lines: seq<Bytes>, perPage: nat, last: nat)
    ensures SlicesJoined(lines, perPage, last) == NewestTexts(lines)(Newer(last, perPage) + perPage)
  {
    NothingIsNewest(lines, 0);
    forall skip: nat ensures NewestTexts(lines)(skip + perPage)
        == SliceTexts(lines, perPage)(skip) + NewestTexts(lines)(skip) {
      SliceExtends(lines, perPage, skip);
    }
    Telescoping(SliceTexts(lines, perPage), NewestTexts(lines), perPage, last);
  }

  lemma PageIsNewerSlice(body: Bytes, perPage: nat, page: nat)
    requires body != [] && perPage > 0 && Newer(page, perPage) <= INT64_MAX
    ensures LogPage(body, page, perPage) == Slice(Lines(body), Newer(page, perPage), perPage)
  {
    NewerIsProduct(page, perPage);
    assert Wrapped(Newer(page, perPage)) == Newer(page, perPage);
  }

  lemma {:induction false} PagesAreSlices(body: Bytes, perPage: nat, last: nat)
    requires body != [] && perPage > 0 && Newer(last, perPage) <= INT64_MAX
    ensures PagesJoined(body, perPage, last) == SlicesJoined(Lines(body), perPage, last)
  {
    PageIsNewerSlice(body, perPage, last);
    if last > 0 {
      PagesAreSlices(body, perPage, last - 1);
    }
  }

  lemma SuffixJoined(lines: seq<Bytes>, from: nat, to: nat)
    requires from <= to <= |lines|
    ensures Joined(lines[from..]) == Joined(lines[from..to]) + Joined(lines[to..])
  {
    assert lines[from..] == lines[from..to] + lines[to..];
    JoinedConcat(lines[from..to], lines[to..]);
  }

  lemma SlicesRebuildBody(body: Bytes, perPage: nat, last: nat)
    requires |Lines(body)| <= Newer(last, perPage) + perPage
    ensures SlicesJoined(Lines(body), perPage, last) == body
  {
    SlicesAreASuffix(Lines(body), perPage, last);
    LinesAreACut(body);
    assert Lines(body)[0..] == Lines(body);
  }

  /** Every page, the oldest first, joined: the file, but for a newline at its very end. The oldest page
      may be any page at or past the one with the first line. */
  lemma PagesRebuildFile(file: Bytes, perPage: nat, last: nat)
    requires Body(file) != [] && perPage > 0
    requires last * perPage <= INT64_MAX && |Lines(Body(file))| <= (last + 1) * perPage
    ensures file == PagesJoined(Body(file), perPage, last) + if file[|file| - 1] == 10 then [10] else []
  {
    NewerIsProduct(last, perPage);
    Distribute(last, perPage);
    PagesAreSlices(Body(file), perPage, last);
    SlicesRebuildBody(Body(file), perPage, last);
  }

  // ---------- the reader ----------

  function Reversed<T>(s: seq<T>): (r: seq<T>)
    ensures |r| == |s| && forall i :: 0 <= i < |s| ==> r[i] == s[|s| - 1 - i]
  {
    seq(|s|, i requires 0 <= i < |s| => s[|s| - 1 - i])
  }

  method ReverseInPlace(lines: array<Bytes>)
    modifies lines
    ensures lines[..] == Reversed(old(lines[..]))
  {
    var i, j := 0, lines.Length - 1;
    while i < j
      invariant 0 <= i && i + j == lines.Length - 1 && i <= j + 1
      invariant forall k :: 0 <= k < i || j < k < lines.Length ==> lines[k] == old(lines[lines.Length - 1 - k])
      invariant forall k :: i <= k <= j ==> lines[k] == old(lines[k])
    {
      lines[i], lines[j] := lines[j], lines[i];
      i, j := i + 1, j - 1;
    }
  }

  /** The lines collected once the scan reached the lines tail: newest first, without the
      skipped ones. */
  function Collected(tail: seq<Bytes>, skip: int): seq<Bytes> {
    Reversed(tail[..Max(0, |tail| - Max(0, skip))])
  }

  lemma CollectOne(line: Bytes, tail: seq<Bytes>, skip: int)
    ensures Collected([line] + tail, skip) ==
            if |tail| + 1 > skip then Collected(tail, skip) + [line] else Collected(tail, skip)
  {
    var n := Max(0, |tail| - Max(0, skip));
    if |tail| + 1 > skip {
      assert ([line] + tail)[..n + 1] == [line] + tail[..n];
    } else {
      assert tail[..n] == [] && ([line] + tail)[..0] == [];
    }
  }

  lemma ReversedTwice<T>(s: seq<T>)
    ensures Reversed(Reversed(s)) == s
  {
  }

  lemma SliceOfTail(lines: seq<Bytes>, from: nat, tail: seq<Bytes>, skip: int, perPage: nat, n: int)
    requires from <= |lines| && tail == lines[from..] && n == Max(0, |tail| - Max(0, skip))
    requires n == perPage || (tail == lines && n <= perPage)
    ensures tail[..n] == Slice(lines, skip, perPage)
  {
    var end := Max(0, |lines| - Max(0, skip));
    if n > 0 {
      assert end == from + n;
      assert tail[..n] == lines[from..end];
    }
  }

  /** Reversing what was collected gives the page, whichever way the scan stopped. */
  lemma CollectedIsPage(lines: seq<Bytes>, from: nat, tail: seq<Bytes>, skip: int, perPage: nat)
    requires from <= |lines| && tail == lines[from..]
    requires |Collected(tail, skip)| == perPage || (tail == lines && |Collected(tail, skip)| <= perPage)
    ensures Reversed(Collected(tail, skip)) == Slice(lines, skip, perPage)
  {
    var n := Max(0, |tail| - Max(0, skip));
    ReversedTwice(tail[..n]);
    SliceOfTail(lines, from, tail, skip, perPage, n);
  }

  /** From the start of a line on, the lines are the last ones of the whole text. */
  lemma {:induction false} LinesBehind(body: Bytes, at: nat) returns (n: nat)
    requires at <= |body| && (at < |body| ==> body[at] == NEWLINE)
    ensures n <= |Lines(body)| && Lines(body)[n..] == Lines(body[at..])
    decreases |body|
  {
    if at == 0 {
      n := 0;
      assert body[0..] == body;
    } else if at == |body| {
      n := |Lines(body)|;
      assert body[at..] == [];
    } else {
      var e := NextNewline(body, 1);
      assert e <= at;
      var rest := body[e..];
      assert rest[at - e..] == body[at..];
      n := LinesBehind(rest, at - e);
      DropMore(body[..e], Lines(rest), n);
      n := n + 1;
    }
  }

  lemma DropMore(line: Bytes, lines: seq<Bytes>, n: nat)
    requires n <= |lines|
    ensures ([line] + lines)[n + 1..] == lines[n..]
  {
  }

  /** What the scan knows when it looks at the byte before offset: there is no newline from
      offset to lineEndPos, where the part begins whose lines were counted and collected. */
  ghost predicate Scanning(body: Bytes, offset: int, lineEndPos: int, lineCount: int, lines: seq<Bytes>, skip: int) {
    && 0 <= offset <= lineEndPos <= |body|
    && (lineEndPos < |body| ==> body[lineEndPos] == NEWLINE)
    && (forall j :: offset <= j < lineEndPos ==> body[j] != NEWLINE)
    && lineCount == |Lines(body[lineEndPos..])|
    && lines == Collected(Lines(body[lineEndPos..]), skip)
  }

  lemma ScanFindsLine(body: Bytes, pos: nat, lineEndPos: int, lineCount: int, lines: seq<Bytes>, skip: int)
    requires Scanning(body, pos + 1, lineEndPos, lineCount, lines, skip)
    requires body[pos] == NEWLINE || pos == 0
    ensures Lines(body[pos..]) == [body[pos..lineEndPos]] + Lines(body[lineEndPos..])
    ensures lineCount + 1 == |Lines(body[pos..])|
    ensures Collected(Lines(body[pos..]), skip) ==
            if lineCount + 1 > skip then lines + [body[pos..lineEndPos]] else lines
  {
    LineFound(body, pos, lineEndPos);
    CollectOne(body[pos..lineEndPos], Lines(body[lineEndPos..]), skip);
  }

  /** The scan stops at the start of the file, or behind the lines of a full page. */
  lemma ScanEnds(body: Bytes, start: nat, lines: seq<Bytes>, skip: int, perPage: nat)
    requires start <= |body| && body != [] && (start < |body| ==> body[start] == NEWLINE || start == 0)
    requires lines == Collected(Lines(body[start..]), skip)
    requires perPage > 0
    requires |lines| == perPage || (start == 0 && |lines| <= perPage)
    ensures Reversed(lines) == PageAfter(body, skip, perPage)
  {
    var from := 0;
    if start == 0 {
      assert body[0..] == body;
      assert Lines(body)[0..] == Lines(body);
    } else {
      from := LinesBehind(body, start);
    }
    CollectedIsPage(Lines(body), from, Lines(body[start..]), skip, perPage);
  }

  /** A page size of 0: the scan stops at once or runs to the start of the file. */
  lemma ZeroSizeScanEnds(body: Bytes, lines: seq<Bytes>)
    requires body != []
    requires lines == Collected(Lines(body), 0)
    ensures Reversed(lines) == Lines(body)
  {
    assert Lines(body)[..|Lines(body)|] == Lines(body);
  }

  /** One page of the log, for a file that may be missing. Reading succeeds exactly when the
      file exists and has more than a newline in it. */
  method GetLogsSkipSend(enableFile: bool, file: Option<Bytes>, page: nat, perPage: nat)
    returns (r: Result<seq<Bytes>, string>)
    ensures !enableFile ==> r == Ok([[]])
    ensures enableFile ==> (r.Ok? <==> file.Some? && Body(file.value) != [])
    ensures enableFile && r.Ok? ==> r.value == LogPage(Body(file.value), page, perPage)
  {
    if !enableFile {
      return Ok([[]]);
    }
    if file.None? {
      return Err("file_read_error");
    }
    var lines := ScanBackwards(file.value, Wrapped(page * perPage), perPage);
    if lines.Err? {
      return lines;
    }
    var a := new Bytes[|lines.value|](i requires 0 <= i < |lines.value| => lines.value[i]);
    assert a[..] == lines.value;
    ReverseInPlace(a);
    return Ok(a[..]);
  }

  lemma BodySlice(file: Bytes, from: nat, to: nat)
    requires from <= to <= |Body(file)|
    ensures file[from..to] == Body(file)[from..to]
  {
  }

  /** The loop over the bytes of the file: the lines of the page, newest first. */
  method ScanBackwards(file: Bytes, skip: int, perPage: nat) returns (r: Result<seq<Bytes>, string>)
    requires perPage == 0 ==> skip == 0
    ensures r.Ok? <==> Body(file) != []
    ensures r.Ok? ==> Reversed(r.value) == PageAfter(Body(file), skip, perPage)
  {
    ghost var body := Body(file);
    var lines: seq<Bytes> := [];
    var lineCount := 0;

    // if the last byte of the file is a newline, skip it
    var endOffset := 0;
    if |file| - 1 >= 0 && file[|file| - 1] == NEWLINE {
      endOffset := -1;
    }
    var lineEndPos := |file| + endOffset;
    var offset := lineEndPos;
    assert body == file[..lineEndPos];
    assert body[lineEndPos..] == [];
    while true
      invariant Scanning(body, offset, lineEndPos, lineCount, lines, skip)
      invariant body != [] ==> offset > 0
      invariant perPage > 0 ==> |lines| < perPage
      invariant perPage == 0 ==> (lines == [] ==> offset == |body|)
      invariant perPage == 0 && lines != [] ==> body != [] && PageAfter(body, 0, 0) == Lines(body)
      decreases offset
    {
      var pos := offset - 1;
      if pos < 0 {
        return Err("file_read_error");
      }
      if file[pos] == NEWLINE || pos == 0 {
        ScanFindsLine(body, pos, lineEndPos, lineCount, lines, skip);
        lineCount := lineCount + 1;
        if lineCount > skip {
          BodySlice(file, pos, lineEndPos);
          lines := lines + [file[pos..lineEndPos]];
        }
        if pos == 0 {
          if perPage == 0 {
            assert body[0..] == body;
            ZeroSizeScanEnds(body, lines);
          } else {
            ScanEnds(body, 0, lines, skip, perPage);
          }
          break;
        }
        lineEndPos := pos;
      }
      offset := pos;
      if |lines| == perPage {
        if perPage > 0 {
          ScanEnds(body, lineEndPos, lines, skip, perPage);
        }
        break;
      }
    }
    return Ok(lines);
  }
}
