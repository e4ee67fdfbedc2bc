/**
 * Ingestion of an uploaded document: the content-type dispatch of text extraction,
 * the paragraph chunker with its overlap buffer and sentence-aware carving of long
 * paragraphs, and the assembly of the stored chunk rows.
 *
 * The chunker is specified as a state machine over `Chunker` values (the untrimmed
 * buffers emitted so far and the current buffer); `ChunkText` is the loop of the
 * original, proved to compute `Chunks(text)`, and the lemmas state what the
 * chunks look like.
 */
module DocumentProcessing {
  import opened Wrappers
  import opened Sequences
  import opened Text
  import opened Entities
  import VoyageEmbedding

  const TargetChunkSize := 1000
  const Overlap := 200

  /** `StringBuilder.AppendLine` ends a line with `Environment.NewLine`, taken as a line feed. */
  const NewLine := "\n"

  // ---------------------------------------------------------------------------
  // Paragraphs: `text.Split(["\n\n", "\r\n\r\n", "\n", "\r\n"], RemoveEmptyEntries)`
  // ---------------------------------------------------------------------------

  /** The offset of the first line feed of `s`, or `|s|` when there is none. */
  function LineEnd(s: string): (n: nat)
    ensures n <= |s| && (n < |s| ==> s[n] == '\n')
    ensures forall i :: 0 <= i < n ==> s[i] != '\n'
  {
    if s == [] || s[0] == '\n' then 0 else 1 + LineEnd(s[1..])
  }

  /**
   * Every line feed ends a piece, a carriage return just before it belongs to the
   * separator, and empty pieces are dropped.
   */
  function Paragraphs(text: string): (ps: seq<string>)
    ensures forall p :: p in ps ==> p != [] && '\n' !in p
    decreases |text|
  {
    var n := LineEnd(text);
    var piece := if n < |text| && n > 0 && text[n - 1] == '\r' then text[..n - 1] else text[..n];
    var first := if piece == [] then [] else [piece];
    if n == |text| then first else first + Paragraphs(text[n + 1..])
  }

  /** Text made only of line breaks, `\n` or `\r\n`. */
  predicate OnlyLineBreaks(text: string)
    decreases |text|
  {
    text == []
    || (text[0] == '\n' && OnlyLineBreaks(text[1..]))
    || (|text| >= 2 && text[0] == '\r' && text[1] == '\n' && OnlyLineBreaks(text[2..]))
  }

  /** Empty text, or text made of line breaks only, has no paragraphs. */
  lemma {:induction false} LineBreaksHaveNoParagraphs(text: string)
    requires OnlyLineBreaks(text)
    ensures Paragraphs(text) == []
    decreases |text|
  {
    if text != [] {
      var line := if text[0] == '\n' then "" else "\r";
      var rest := text[|line| + 1..];
      assert text == line + NewLine + rest;
      FirstLineParagraphs(line, rest);
      LineBreaksHaveNoParagraphs(rest);
    }
  }

  /** A line without a line feed is one paragraph, kept whole (a lone `\r` is not a separator), unless empty. */
  lemma SingleLineParagraphs(line: string)
    requires '\n' !in line
    ensures Paragraphs(line) == if line == [] then [] else [line]
  {
    assert LineEnd(line) == |line|;
    assert line[..|line|] == line;
  }

  /** The first line feed ends the first paragraph; a carriage return just before it is part of the separator. */
  lemma FirstLineParagraphs(line: string, rest: string)
    requires '\n' !in line
    ensures var piece := if line != [] && line[|line| - 1] == '\r' then line[..|line| - 1] else line;
      Paragraphs(line + NewLine + rest) == (if piece == [] then [] else [piece]) + Paragraphs(rest)
  {
    var text := line + NewLine + rest;
    var n := LineEnd(text);
    assert text[|line|] == '\n';
    assert n == |line|;
    assert text[..|line|] == line;
    if line != [] {
      assert text[n - 1] == line[|line| - 1];
      assert text[..n - 1] == line[..|line| - 1];
    }
    assert text[|line| + 1..] == rest;
  }

  lemma SqueezeFlattenCons(piece: string, ps: seq<string>)
    ensures Squeeze(Flatten((if piece == [] then [] else [piece]) + ps)) == Squeeze(piece) + Squeeze(Flatten(ps))
  {
    var first := if piece == [] then [] else [piece];
    assert Flatten(first) == piece by {
      if piece != [] {
        assert [piece][1..] == [];
      }
    }
    FlattenConcat(first, ps);
    SqueezeAppend(piece, Flatten(ps));
  }

  /** Cutting a line off at its line feed, the separator (`\n` or `\r\n`) is white space. */
  lemma LineSplit(text: string, n: nat, piece: string)
    requires n < |text| && text[n] == '\n'
    requires piece == text[..n] || (n > 0 && text[n - 1] == '\r' && piece == text[..n - 1])
    ensures Squeeze(text) == Squeeze(piece) + Squeeze(text[n + 1..])
  {
    var sep := text[|piece|..n + 1];
    assert text == piece + sep + text[n + 1..];
    forall i | 0 <= i < |sep|
      ensures IsWhiteSpace(sep[i])
    {
      assert sep[i] == text[|piece| + i];
    }
    SqueezeAround(piece, sep, text[n + 1..]);
  }

  /** The paragraphs hold every character of the text that is not white space, in order. */
  lemma {:induction false} ParagraphsKeepText(text: string)
    ensures Squeeze(Flatten(Paragraphs(text))) == Squeeze(text)
    decreases |text|
  {
    var n := LineEnd(text);
    if n == |text| {
      assert text[..n] == text;
      SqueezeFlattenCons(text, []);
    } else {
      var piece := if n > 0 && text[n - 1] == '\r' then text[..n - 1] else text[..n];
      ParagraphsKeepText(text[n + 1..]);
      SqueezeFlattenCons(piece, Paragraphs(text[n + 1..]));
      LineSplit(text, n, piece);
    }
  }

  // ---------------------------------------------------------------------------
  // Break points
  // ---------------------------------------------------------------------------

  /** The two kinds of break `FindBreakPoint` looks for, in order of preference. */
  datatype BreakKind = SentenceEnd | Space

  predicate IsBreak(kind: BreakKind, c: char)
  {
    match kind
    case SentenceEnd => c == '.' || c == '!' || c == '?'
    case Space => IsWhiteSpace(c)
  }

  /** No break of `kind` at any index strictly between `lo` and `hi`. */
  predicate NoBreak(text: string, kind: BreakKind, lo: nat, hi: nat)
    requires hi <= |text|
  {
    forall j :: lo < j < hi ==> !IsBreak(kind, text[j])
  }

  /** The last index strictly between `lo` and `hi` holding a break of `kind`. */
  function LastBreak(text: string, kind: BreakKind, lo: nat, hi: nat): (r: Option<nat>)
    requires hi <= |text|
    ensures r.Some? ==> lo < r.value < hi && IsBreak(kind, text[r.value]) && NoBreak(text, kind, r.value, hi)
    ensures r.None? ==> NoBreak(text, kind, lo, hi)
    decreases hi
  {
    if hi <= lo + 1 then None
    else if IsBreak(kind, text[hi - 1]) then Some(hi - 1)
    else LastBreak(text, kind, lo, hi - 1)
  }

  /** The search limit once a non-positive `maxLength` has been replaced by the target size. */
  function Reach(maxLength: int): nat
  {
    if maxLength <= 0 then TargetChunkSize else maxLength
  }

  /**
   * Where `FindBreakPoint` cuts `text` when at most `maxLength` characters fit: the
   * whole text if it fits; else one past the last sentence end in the upper half of
   * the window; else one past the last white space there; else the window's end.
   */
  function BreakPoint(text: string, maxLength: int): (r: nat)
    ensures maxLength >= |text| ==> r == |text|
    ensures 0 < maxLength < |text| ==> maxLength / 2 < r <= maxLength
    ensures text != [] ==> 0 < r <= |text|
  {
    if maxLength >= |text| then |text|
    else
      var m := Reach(maxLength);
      var searchEnd := Min(m, |text|);
      match LastBreak(text, SentenceEnd, m / 2, searchEnd)
      case Some(j) => j + 1
      case None =>
        match LastBreak(text, Space, m / 2, searchEnd)
        case Some(j) => j + 1
        case None => searchEnd
  }

  /**
   * The order of preference: with a window (lo, end) to search, the cut follows the
   * last sentence end in it; failing that the last white space; failing both, the
   * window's end.
   */
  lemma BreakPointOrder(text: string, maxLength: int)
    requires maxLength < |text|
    ensures var r, lo, end := BreakPoint(text, maxLength), Reach(maxLength) / 2, Min(Reach(maxLength), |text|);
      && (!NoBreak(text, SentenceEnd, lo, end) ==>
            lo < r - 1 < end && IsBreak(SentenceEnd, text[r - 1]) && NoBreak(text, SentenceEnd, r - 1, end))
      && (NoBreak(text, SentenceEnd, lo, end) && !NoBreak(text, Space, lo, end) ==>
            lo < r - 1 < end && IsBreak(Space, text[r - 1]) && NoBreak(text, Space, r - 1, end))
      && (NoBreak(text, SentenceEnd, lo, end) && NoBreak(text, Space, lo, end) ==> r == end)
  {
  }

  /** One backward scan of `FindBreakPoint`: `for (i = searchEnd - 1; i > lo; i--)`, stopping at a break of `kind`. */
  method ScanBack(text: string, kind: BreakKind, lo: nat, searchEnd: nat) returns (r: Option<nat>)
    requires searchEnd <= |text|
    ensures r == LastBreak(text, kind, lo, searchEnd)
  {
    var i := searchEnd - 1;
    while i > lo
      invariant -1 <= i < searchEnd
      invariant LastBreak(text, kind, lo, i + 1) == LastBreak(text, kind, lo, searchEnd)
      decreases i
    {
      if IsBreak(kind, text[i]) {
        return Some(i);
      }
      i := i - 1;
    }
    return None;
  }

  /** `FindBreakPoint`: two backward scans over the window, sentence ends first. */
  method FindBreakPoint(text: string, maxLength: int) returns (r: nat)
    ensures r == BreakPoint(text, maxLength)
  {
    if maxLength >= |text| {
      return |text|;
    }
    var maxLen := maxLength;
    if maxLen <= 0 {
      maxLen := TargetChunkSize;
    }
    var searchEnd := Min(maxLen, |text|);
    var sentenceEnd := ScanBack(text, SentenceEnd, maxLen / 2, searchEnd);
    if sentenceEnd.Some? {
      return sentenceEnd.value + 1;
    }
    var space := ScanBack(text, Space, maxLen / 2, searchEnd);
    if space.Some? {
      return space.value + 1;
    }
    return searchEnd;
  }

  // ---------------------------------------------------------------------------
  // The chunker as a state machine
  // ---------------------------------------------------------------------------

  /** The buffers emitted so far, untrimmed, and the buffer being filled (`currentChunk`). */
  datatype Chunker = Chunker(raw: seq<string>, buf: string)

  const Start := Chunker([], "")

  /** The overlap seed: the last `min(Overlap, |s|)` characters of `s`. */
  function Tail(s: string): (t: string)
    ensures |t| == Min(Overlap, |s|) && t == s[|s| - |t|..]
  {
    s[Max(0, |s| - Overlap)..]
  }

  /** Emits the buffer and seeds the next one with its last `Overlap` characters. */
  function Emit(st: Chunker): (r: Chunker)
    ensures r.raw == st.raw + [st.buf]
    ensures |r.buf| == Min(Overlap, |st.buf|) && st.buf == st.buf[..|st.buf| - |r.buf|] + r.buf
  {
    Chunker(st.raw + [st.buf], Tail(st.buf))
  }

  function AppendLine(st: Chunker, line: string): Chunker
  {
    st.(buf := st.buf + line + NewLine)
  }

  /** The carving loop for a paragraph longer than the target (`while (remaining.Length > 0)`). */
  function Carve(st: Chunker, remaining: string): (r: Chunker)
    ensures st.raw <= r.raw
    decreases |remaining|
  {
    if |remaining| == 0 then st
    else if |st.buf| + |remaining| <= TargetChunkSize then AppendLine(st, remaining)
    else
      var breakPoint := BreakPoint(remaining, TargetChunkSize - |st.buf|);
      Carve(Emit(st.(buf := st.buf + remaining[..breakPoint])), TrimStart(remaining[breakPoint..]))
  }

  /** One iteration of the `foreach (var para in paragraphs)` loop. */
  function AddParagraph(st: Chunker, para: string): (r: Chunker)
    ensures st.raw <= r.raw
  {
    if |para| > TargetChunkSize then
      var flushed := if |st.buf| > 0 then Emit(st) else st;
      Carve(flushed, para)
    else if |st.buf| + |para| > TargetChunkSize && |st.buf| > 0 then
      AppendLine(Emit(st), para)
    else
      AppendLine(st, para)
  }

  function AddParagraphs(st: Chunker, ps: seq<string>): (r: Chunker)
    ensures st.raw <= r.raw
    decreases |ps|
  {
    if ps == [] then st else AddParagraph(AddParagraphs(st, ps[..|ps| - 1]), ps[|ps| - 1])
  }

  /** The final buffer is emitted exactly when it is non-empty after trimming. */
  function Finish(st: Chunker): (raw: seq<string>)
    ensures raw == st.raw || (raw == st.raw + [st.buf] && Trim(st.buf) != [])
    ensures Trim(st.buf) != [] ==> raw == st.raw + [st.buf]
  {
    if |st.buf| > 0 && |Trim(st.buf)| > 0 then st.raw + [st.buf] else st.raw
  }

  /** Every emitted buffer, untrimmed, in emission order. */
  function Emissions(text: string): seq<string>
  {
    Finish(AddParagraphs(Start, Paragraphs(text)))
  }

  function TrimAll(raw: seq<string>): (chunks: seq<string>)
    ensures |chunks| == |raw| && forall i :: 0 <= i < |raw| ==> chunks[i] == Trim(raw[i])
  {
    seq(|raw|, i requires 0 <= i < |raw| => Trim(raw[i]))
  }

  /** `ChunkText(text)`: each emitted buffer, trimmed. */
  function Chunks(text: string): seq<string>
  {
    TrimAll(Emissions(text))
  }

  // ---------------------------------------------------------------------------
  // What the chunks look like
  // ---------------------------------------------------------------------------

  /** At most 1200 characters, or 1201 ending in the line feed `AppendLine` added. */
  predicate Bounded(s: string)
  {
    |s| <= TargetChunkSize + Overlap || (|s| == TargetChunkSize + Overlap + 1 && s[|s| - 1] == '\n')
  }

  /** Each emitted buffer begins with the overlap seed taken from the one before it. */
  predicate Overlapping(raw: seq<string>)
  {
    forall i :: 0 < i < |raw| ==> Tail(raw[i - 1]) <= raw[i]
  }

  /** What holds of the chunker between paragraphs. */
  predicate Good(st: Chunker)
  {
    && Overlapping(st.raw)
    && (|st.raw| > 0 ==> Tail(st.raw[|st.raw| - 1]) <= st.buf)
    && (forall s :: s in st.raw ==> Bounded(s))
    && Bounded(st.buf)
  }

  lemma PrefixTrans(a: string, b: string, c: string)
    requires a <= b && b <= c
    ensures a <= c
  {
    assert c[..|a|] == b[..|a|];
  }

  lemma EmitGood(st: Chunker)
    requires Good(st)
    ensures Good(Emit(st)) && |Emit(st).buf| <= Overlap
  {
    var r := Emit(st);
    forall i | 0 < i < |r.raw|
      ensures Tail(r.raw[i - 1]) <= r.raw[i]
    {
      if i < |st.raw| {
        assert r.raw[i - 1] == st.raw[i - 1] && r.raw[i] == st.raw[i];
      }
    }
  }

  lemma GrowGood(st: Chunker, extra: string)
    requires Good(st) && Bounded(st.buf + extra)
    ensures Good(st.(buf := st.buf + extra))
  {
    if |st.raw| > 0 {
      PrefixTrans(Tail(st.raw[|st.raw| - 1]), st.buf, st.buf + extra);
    }
  }

  /** One carving step: the emitted buffer fits the target and the chunker stays good. */
  lemma CarveStep(st: Chunker, remaining: string)
    requires Good(st) && |st.buf| < TargetChunkSize && |st.buf| + |remaining| > TargetChunkSize
    ensures var piece := remaining[..BreakPoint(remaining, TargetChunkSize - |st.buf|)];
      var next := Emit(st.(buf := st.buf + piece));
      && Good(next) && |next.buf| <= Overlap
      && |next.raw| == |st.raw| + 1 && |next.raw[|st.raw|]| <= TargetChunkSize
  {
    var piece := remaining[..BreakPoint(remaining, TargetChunkSize - |st.buf|)];
    GrowGood(st, piece);
    EmitGood(st.(buf := st.buf + piece));
  }

  /** A carving step that emits: `Carve` continues from the emitted state with the rest of the paragraph. */
  lemma CarveUnfold(st: Chunker, remaining: string)
    requires |remaining| > 0 && |st.buf| + |remaining| > TargetChunkSize
    ensures var breakPoint := BreakPoint(remaining, TargetChunkSize - |st.buf|);
      Carve(st, remaining) == Carve(Emit(st.(buf := st.buf + remaining[..breakPoint])), TrimStart(remaining[breakPoint..]))
  {
  }

  /**
   * Carving, started with a buffer shorter than the target, keeps the chunker good,
   * and every buffer it emits has at most `TargetChunkSize` characters.
   */
  lemma {:induction false} CarveBound(st: Chunker, remaining: string)
    requires Good(st) && |st.buf| < TargetChunkSize
    ensures var r := Carve(st, remaining);
      Good(r) && forall i :: |st.raw| <= i < |r.raw| ==> |r.raw[i]| <= TargetChunkSize
    decreases |remaining|
  {
    if |remaining| == 0 {
    } else if |st.buf| + |remaining| <= TargetChunkSize {
      GrowGood(st, remaining + NewLine);
      assert AppendLine(st, remaining).buf == st.buf + (remaining + NewLine);
    } else {
      var breakPoint := BreakPoint(remaining, TargetChunkSize - |st.buf|);
      var next := Emit(st.(buf := st.buf + remaining[..breakPoint]));
      var rest := TrimStart(remaining[breakPoint..]);
      CarveStep(st, remaining);
      CarveBound(next, rest);
      CarveUnfold(st, remaining);
      var r := Carve(next, rest);
      forall i | |st.raw| <= i < |r.raw|
        ensures |r.raw[i]| <= TargetChunkSize
      {
        if i == |st.raw| {
          assert r.raw[i] == next.raw[i];
        }
      }
    }
  }

  lemma CarveParagraphGood(st: Chunker, para: string)
    requires Good(st) && |para| > TargetChunkSize
    ensures Good(AddParagraph(st, para))
  {
    if |st.buf| > 0 {
      EmitGood(st);
      CarveBound(Emit(st), para);
    } else {
      CarveBound(st, para);
    }
  }

  lemma AppendParagraphGood(st: Chunker, para: string)
    requires Good(st) && |st.buf| + |para| <= TargetChunkSize + Overlap
    ensures Good(AppendLine(st, para))
  {
    GrowGood(st, para + NewLine);
    assert AppendLine(st, para).buf == st.buf + (para + NewLine);
  }

  lemma AddParagraphGood(st: Chunker, para: string)
    requires Good(st)
    ensures Good(AddParagraph(st, para))
  {
    if |para| > TargetChunkSize {
      CarveParagraphGood(st, para);
    } else if |st.buf| + |para| > TargetChunkSize && |st.buf| > 0 {
      EmitGood(st);
      AppendParagraphGood(Emit(st), para);
    } else {
      AppendParagraphGood(st, para);
    }
  }

  lemma {:induction false} AddParagraphsGood(ps: seq<string>)
    ensures Good(AddParagraphs(Start, ps))
    decreases |ps|
  {
    if ps != [] {
      AddParagraphsGood(ps[..|ps| - 1]);
      AddParagraphGood(AddParagraphs(Start, ps[..|ps| - 1]), ps[|ps| - 1]);
    }
  }

  /** The emitted buffers are bounded and each starts with the previous one's overlap seed. */
  lemma EmissionsGood(text: string)
    ensures Overlapping(Emissions(text))
    ensures forall s :: s in Emissions(text) ==> Bounded(s)
  {
    var st := AddParagraphs(Start, Paragraphs(text));
    AddParagraphsGood(Paragraphs(text));
    var raw := Emissions(text);
    if raw != st.raw {
      forall i | 0 < i < |raw|
        ensures Tail(raw[i - 1]) <= raw[i]
      {
        if i < |st.raw| {
          assert raw[i - 1] == st.raw[i - 1] && raw[i] == st.raw[i];
        }
      }
    }
  }

  /** A bounded buffer trims to at most 1200 characters. */
  lemma BoundedTrim(s: string)
    requires Bounded(s)
    ensures |Trim(s)| <= TargetChunkSize + Overlap
  {
    if |s| > TargetChunkSize + Overlap {
      TrimDropsTrailingWhiteSpace(s);
    }
  }

  /**
   * Every chunk has at most `TargetChunkSize + Overlap` characters. (The target
   * itself is not a bound: an overlap seed followed by a paragraph of up to 1000
   * characters is emitted whole.)
   */
  lemma ChunkLengthBound(text: string)
    ensures forall c :: c in Chunks(text) ==> |c| <= TargetChunkSize + Overlap
  {
    EmissionsGood(text);
    var raw := Emissions(text);
    forall c | c in Chunks(text)
      ensures |c| <= TargetChunkSize + Overlap
    {
      var i :| 0 <= i < |raw| && c == Chunks(text)[i];
      BoundedTrim(raw[i]);
    }
  }

  /** In overlapping buffers, each trimmed buffer begins with the previous buffer's trimmed seed. */
  lemma TrimmedOverlap(raw: seq<string>)
    requires Overlapping(raw)
    ensures forall i :: 0 <= i < |raw| - 1 ==> Trim(Tail(raw[i])) <= Trim(raw[i + 1])
  {
    forall i | 0 <= i < |raw| - 1
      ensures Trim(Tail(raw[i])) <= Trim(raw[i + 1])
    {
      var seed := Tail(raw[i]);
      assert seed <= raw[i + 1];
      assert raw[i + 1] == seed + raw[i + 1][|seed|..];
      TrimPrefix(seed, raw[i + 1][|seed|..]);
    }
  }

  /**
   * Chunk i is emitted buffer i trimmed, and chunk i + 1 begins with the trimmed
   * overlap seed of buffer i: its last `min(Overlap, |buffer i|)` characters.
   */
  lemma ChunksOverlap(text: string)
    ensures var raw, chunks := Emissions(text), Chunks(text);
      && |chunks| == |raw|
      && forall i :: 0 <= i < |raw| - 1 ==>
           chunks[i] == Trim(raw[i]) && Tail(raw[i]) <= raw[i + 1] && Trim(Tail(raw[i])) <= chunks[i + 1]
  {
    EmissionsGood(text);
    TrimmedOverlap(Emissions(text));
  }

  /** Text without paragraphs (empty, or only line breaks) gives no chunks. */
  lemma NoParagraphsNoChunks(text: string)
    requires Paragraphs(text) == [] || OnlyLineBreaks(text)
    ensures Chunks(text) == []
  {
    if OnlyLineBreaks(text) {
      LineBreaksHaveNoParagraphs(text);
    }
    assert AddParagraphs(Start, []) == Start;
  }

  // ---------------------------------------------------------------------------
  // No text is lost
  // ---------------------------------------------------------------------------

  /** How many leading characters of the next buffer repeat the last emitted one: its overlap seed. */
  function SeedLength(raw: seq<string>): nat
  {
    if raw == [] then 0 else |Tail(raw[|raw| - 1])|
  }

  /** The emitted buffers, each without the seed it repeats from the one before, concatenated. */
  function Fresh(raw: seq<string>): string
    decreases |raw|
  {
    if raw == [] then []
    else
      var before, last := raw[..|raw| - 1], raw[|raw| - 1];
      Fresh(before) + last[Min(SeedLength(before), |last|)..]
  }

  /** Everything the chunker has taken in so far: its emissions and then its current buffer, seeds removed. */
  function Written(st: Chunker): string
  {
    Fresh(st.raw + [st.buf])
  }

  /** The current buffer still holds the seed it started with. */
  predicate SeedFits(st: Chunker)
  {
    SeedLength(st.raw) <= |st.buf|
  }

  lemma FreshSnoc(raw: seq<string>, s: string)
    requires SeedLength(raw) <= |s|
    ensures Fresh(raw + [s]) == Fresh(raw) + s[SeedLength(raw)..]
  {
    assert (raw + [s])[..|raw|] == raw;
  }

  /** Emitting moves the buffer to the output and keeps only its seed: nothing new is written. */
  lemma WrittenEmit(st: Chunker)
    requires SeedFits(st)
    ensures Written(Emit(st)) == Written(st) && SeedFits(Emit(st))
  {
    var r := Emit(st);
    FreshSnoc(st.raw, st.buf);
    FreshSnoc(r.raw, r.buf);
    assert r.buf[SeedLength(r.raw)..] == [];
  }

  lemma FreshGrow(raw: seq<string>, buf: string, extra: string)
    requires SeedLength(raw) <= |buf|
    ensures Fresh(raw + [buf + extra]) == Fresh(raw + [buf]) + extra
  {
    var k := SeedLength(raw);
    FreshSnoc(raw, buf);
    FreshSnoc(raw, buf + extra);
    SliceAppend(buf, extra, k);
    AppendAssoc(Fresh(raw), buf[k..], extra);
  }

  /** Appending to the buffer writes exactly what is appended. */
  lemma WrittenGrow(st: Chunker, extra: string)
    requires SeedFits(st)
    ensures Written(st.(buf := st.buf + extra)) == Written(st) + extra
    ensures SeedFits(st.(buf := st.buf + extra))
  {
    FreshGrow(st.raw, st.buf, extra);
  }

  /** `AppendLine` writes the line and a line feed. */
  lemma AppendLineKeepsText(st: Chunker, line: string)
    requires SeedFits(st)
    ensures SeedFits(AppendLine(st, line))
    ensures Squeeze(Written(AppendLine(st, line))) == Squeeze(Written(st)) + Squeeze(line)
  {
    WrittenGrow(st, line + NewLine);
    assert AppendLine(st, line) == st.(buf := st.buf + (line + NewLine));
    SqueezeAppend(Written(st), line + NewLine);
    SqueezeAppend(line, NewLine);
    assert Squeeze(NewLine) == [];
  }

  /** Cutting `remaining` at `k` and dropping the white space after the cut loses nothing else. */
  lemma SqueezeCut(written: string, remaining: string, k: nat)
    requires k <= |remaining|
    ensures Squeeze(written + remaining[..k]) + Squeeze(TrimStart(remaining[k..])) == Squeeze(written) + Squeeze(remaining)
  {
    assert remaining == remaining[..k] + remaining[k..];
    SqueezeRegroup(written, remaining[..k], remaining[k..]);
  }

  /** Carving writes the whole paragraph, less the white space `TrimStart` drops at each cut. */
  lemma {:induction false} CarveKeepsText(st: Chunker, remaining: string)
    requires SeedFits(st)
    ensures SeedFits(Carve(st, remaining))
    ensures Squeeze(Written(Carve(st, remaining))) == Squeeze(Written(st)) + Squeeze(remaining)
    decreases |remaining|
  {
    if |remaining| == 0 {
      assert Squeeze(Written(st)) + Squeeze(remaining) == Squeeze(Written(st));
    } else if |st.buf| + |remaining| <= TargetChunkSize {
      AppendLineKeepsText(st, remaining);
    } else {
      var breakPoint := BreakPoint(remaining, TargetChunkSize - |st.buf|);
      var grown := st.(buf := st.buf + remaining[..breakPoint]);
      WrittenGrow(st, remaining[..breakPoint]);
      WrittenEmit(grown);
      CarveKeepsText(Emit(grown), TrimStart(remaining[breakPoint..]));
      CarveUnfold(st, remaining);
      SqueezeCut(Written(st), remaining, breakPoint);
    }
  }

  /** One paragraph step writes the paragraph, up to white space. */
  lemma AddParagraphKeepsText(st: Chunker, para: string)
    requires SeedFits(st)
    ensures SeedFits(AddParagraph(st, para))
    ensures Squeeze(Written(AddParagraph(st, para))) == Squeeze(Written(st)) + Squeeze(para)
  {
    if |para| > TargetChunkSize {
      if |st.buf| > 0 {
        WrittenEmit(st);
        CarveKeepsText(Emit(st), para);
      } else {
        CarveKeepsText(st, para);
      }
    } else if |st.buf| + |para| > TargetChunkSize && |st.buf| > 0 {
      WrittenEmit(st);
      AppendLineKeepsText(Emit(st), para);
    } else {
      AppendLineKeepsText(st, para);
    }
  }

  lemma {:induction false} AddParagraphsKeepText(ps: seq<string>)
    ensures SeedFits(AddParagraphs(Start, ps))
    ensures Squeeze(Written(AddParagraphs(Start, ps))) == Squeeze(Flatten(ps))
    decreases |ps|
  {
    if ps == [] {
      FreshSnoc([], "");
    } else {
      var init, last := ps[..|ps| - 1], ps[|ps| - 1];
      AddParagraphsKeepText(init);
      AddParagraphKeepsText(AddParagraphs(Start, init), last);
      SnocSplit(ps);
      FlattenAppend(init, last);
      SqueezeAppend(Flatten(init), last);
    }
  }

  /** Dropping a blank final buffer drops white space only. */
  lemma FinishKeepsText(st: Chunker)
    requires SeedFits(st)
    ensures Squeeze(Fresh(Finish(st))) == Squeeze(Written(st))
  {
    FreshSnoc(st.raw, st.buf);
    if !(|st.buf| > 0 && |Trim(st.buf)| > 0) {
      var k := SeedLength(st.raw);
      var unsent := st.buf[k..];
      forall i | 0 <= i < |unsent|
        ensures IsWhiteSpace(unsent[i])
      {
        assert unsent[i] == st.buf[k + i];
      }
      SqueezeBlank(unsent);
      SqueezeAppend(Fresh(st.raw), unsent);
    }
  }

  /**
   * No text is lost or made up: the emitted buffers, each without the overlap seed it
   * repeats, carry exactly the characters of the text that are not white space, in
   * order; and each chunk differs from its buffer by white space only.
   */
  lemma ChunksKeepText(text: string)
    ensures Squeeze(Fresh(Emissions(text))) == Squeeze(text)
    ensures |Chunks(text)| == |Emissions(text)|
    ensures forall i :: 0 <= i < |Chunks(text)| ==> Squeeze(Chunks(text)[i]) == Squeeze(Emissions(text)[i])
  {
    var ps := Paragraphs(text);
    AddParagraphsKeepText(ps);
    FinishKeepsText(AddParagraphs(Start, ps));
    ParagraphsKeepText(text);
    forall i | 0 <= i < |Chunks(text)|
      ensures Squeeze(Chunks(text)[i]) == Squeeze(Emissions(text)[i])
    {
      SqueezeTrim(Emissions(text)[i]);
    }
  }

  // ---------------------------------------------------------------------------
  // ChunkText
  // ---------------------------------------------------------------------------

  lemma TrimAllSnoc(raw: seq<string>, s: string)
    ensures TrimAll(raw + [s]) == TrimAll(raw) + [Trim(s)]
  {
  }

  /** The `while (remaining.Length > 0)` loop of `ChunkText`, carving one oversized paragraph. */
  method CarveParagraph(chunks: seq<string>, ghost raw: seq<string>, currentChunk: string, para: string)
    returns (chunks': seq<string>, ghost raw': seq<string>, currentChunk': string)
    requires chunks == TrimAll(raw)
    ensures chunks' == TrimAll(raw')
    ensures Chunker(raw', currentChunk') == Carve(Chunker(raw, currentChunk), para)
  {
    chunks', raw', currentChunk' := chunks, raw, currentChunk;
    var remaining := para;
    while |remaining| > 0
      invariant Carve(Chunker(raw', currentChunk'), remaining) == Carve(Chunker(raw, currentChunk), para)
      invariant chunks' == TrimAll(raw')
      decreases |remaining|
    {
      if |currentChunk'| + |remaining| <= TargetChunkSize {
        currentChunk' := currentChunk' + remaining + NewLine;
        break;
      }
      var spaceAvailable := TargetChunkSize - |currentChunk'|;
      var breakPoint := FindBreakPoint(remaining, spaceAvailable);
      currentChunk' := currentChunk' + remaining[..breakPoint];
      TrimAllSnoc(raw', currentChunk');
      chunks' := chunks' + [Trim(currentChunk')];
      raw' := raw' + [currentChunk'];
      currentChunk' := Tail(currentChunk');
      remaining := TrimStart(remaining[breakPoint..]);
    }
  }

  /** One iteration of the `foreach (var para in paragraphs)` loop of `ChunkText`. */
  method ChunkParagraph(chunks: seq<string>, ghost raw: seq<string>, currentChunk: string, para: string)
    returns (chunks': seq<string>, ghost raw': seq<string>, currentChunk': string)
    requires chunks == TrimAll(raw)
    ensures chunks' == TrimAll(raw')
    ensures Chunker(raw', currentChunk') == AddParagraph(Chunker(raw, currentChunk), para)
  {
    chunks', raw', currentChunk' := chunks, raw, currentChunk;
    if |para| > TargetChunkSize {
      if |currentChunk'| > 0 {
        TrimAllSnoc(raw', currentChunk');
        chunks' := chunks' + [Trim(currentChunk')];
        raw' := raw' + [currentChunk'];
        currentChunk' := Tail(currentChunk');
      }
      chunks', raw', currentChunk' := CarveParagraph(chunks', raw', currentChunk', para);
    } else if |currentChunk'| + |para| > TargetChunkSize && |currentChunk'| > 0 {
      TrimAllSnoc(raw', currentChunk');
      chunks' := chunks' + [Trim(currentChunk')];
      raw' := raw' + [currentChunk'];
      currentChunk' := Tail(currentChunk');
      currentChunk' := currentChunk' + para + NewLine;
    } else {
      currentChunk' := currentChunk' + para + NewLine;
    }
  }

  lemma AddParagraphsSnoc(ps: seq<string>, p: nat)
    requires p < |ps|
    ensures AddParagraphs(Start, ps[..p + 1]) == AddParagraph(AddParagraphs(Start, ps[..p]), ps[p])
  {
    assert ps[..p + 1][..p] == ps[..p];
  }

  /** `ChunkText`: the paragraph loop, then the final buffer. */
  method ChunkText(text: string) returns (chunks: seq<string>)
    ensures chunks == Chunks(text)
  {
    chunks := [];
    ghost var raw: seq<string> := [];
    var paragraphs := Paragraphs(text);
    var currentChunk := "";
    for p := 0 to |paragraphs|
      invariant Chunker(raw, currentChunk) == AddParagraphs(Start, paragraphs[..p])
      invariant chunks == TrimAll(raw)
    {
      AddParagraphsSnoc(paragraphs, p);
      chunks, raw, currentChunk := ChunkParagraph(chunks, raw, currentChunk, paragraphs[p]);
    }
    assert paragraphs[..|paragraphs|] == paragraphs;
    if |currentChunk| > 0 {
      var finalChunk := Trim(currentChunk);
      if |finalChunk| > 0 {
        TrimAllSnoc(raw, currentChunk);
        chunks := chunks + [finalChunk];
      }
    }
  }

  // ---------------------------------------------------------------------------
  // Extraction and ingestion
  // ---------------------------------------------------------------------------

  const PdfType := "application/pdf"
  const DocxType := "application/vnd.openxmlformats-officedocument.wordprocessingml.document"
  const PlainTextType := "text/plain"

  /** An uploaded file, given by the text each extractor (PDF, Word, plain text) reads from it. */
  datatype FileStream = FileStream(pdfText: string, docxText: string, plainText: string)

  function UnsupportedMessage(contentType: string): string
  {
    "Content type '" + contentType + "' is not supported"
  }

  /** `ExtractText`: dispatch on the content type; any other type is refused. */
  function ExtractText(file: FileStream, contentType: string): (r: Result<string, Error>)
    ensures r.Success? <==> contentType in {PdfType, DocxType, PlainTextType}
    ensures r.Failure? ==> r.error == NotSupported(UnsupportedMessage(contentType))
    ensures contentType == PdfType ==> r == Success(file.pdfText)
    ensures contentType == DocxType ==> r == Success(file.docxText)
    ensures contentType == PlainTextType ==> r == Success(file.plainText)
  {
    if contentType == PdfType then Success(file.pdfText)
    else if contentType == DocxType then Success(file.docxText)
    else if contentType == PlainTextType then Success(file.plainText)
    else Failure(NotSupported(UnsupportedMessage(contentType)))
  }

  /** The rows `ProcessDocumentAsync` attaches, in order: row `i` holds text `i`, index `i` and embedding `i`. */
  function ChunkRows(documentId: Guid, texts: seq<string>, embeddings: seq<Vector>): (rows: seq<DocumentChunk>)
    requires |texts| <= |embeddings|
    ensures |rows| == |texts|
    decreases |texts|
  {
    if texts == [] then []
    else
      var i := |texts| - 1;
      ChunkRows(documentId, texts[..i], embeddings) + [DocumentChunk(documentId, texts[i], i, Some(embeddings[i]))]
  }

  /** Row `i` is chunk text `i` with `ChunkIndex = i` and embedding `i`. */
  lemma {:induction false} ChunkRowsIndexed(documentId: Guid, texts: seq<string>, embeddings: seq<Vector>)
    requires |texts| <= |embeddings|
    ensures forall i :: 0 <= i < |texts| ==>
      ChunkRows(documentId, texts, embeddings)[i] == DocumentChunk(documentId, texts[i], i, Some(embeddings[i]))
    decreases |texts|
  {
    if texts != [] {
      ChunkRowsIndexed(documentId, texts[..|texts| - 1], embeddings);
    }
  }

  class DocumentProcessor {
    const context: AppDbContext
    const embeddingService: VoyageEmbedding.VoyageEmbeddingService

    constructor (context: AppDbContext, embeddingService: VoyageEmbedding.VoyageEmbeddingService)
      ensures this.context == context && this.embeddingService == embeddingService
    {
      this.context := context;
      this.embeddingService := embeddingService;
    }

    /**
     * The `for (int i = 0; i < chunkTexts.Count; i++)` loop of `ProcessDocumentAsync`:
     * `embeddings[i]` past the end of the list throws `ArgumentOutOfRangeException`.
     */
    static method AttachChunks(document: Document, chunkTexts: seq<string>, embeddings: seq<Vector>) returns (r: Result<(), Error>)
      modifies document
      ensures document.processed == old(document.processed)
      ensures |chunkTexts| <= |embeddings| ==>
        r.Success? && document.chunks == old(document.chunks) + ChunkRows(document.id, chunkTexts, embeddings)
      ensures |chunkTexts| > |embeddings| ==> r == Failure(ArgumentOutOfRange)
    {
      for i := 0 to |chunkTexts|
        invariant i > 0 ==> i <= |embeddings|
        invariant document.processed == old(document.processed)
        invariant i <= |embeddings| ==> document.chunks == old(document.chunks) + ChunkRows(document.id, chunkTexts[..i], embeddings)
      {
        if i >= |embeddings| {
          return Failure(ArgumentOutOfRange);
        }
        assert chunkTexts[..i + 1][..i] == chunkTexts[..i];
        document.AddChunk(DocumentChunk(document.id, chunkTexts[i], i, Some(embeddings[i])));
      }
      assert chunkTexts[..|chunkTexts|] == chunkTexts;
      return Success(());
    }

    /**
     * `ProcessDocumentAsync`: extract, chunk, embed all chunks in one call, attach
     * chunk `i` with embedding `i` to a new processed document, and store it.
     */
    method ProcessDocument(file: FileStream, filename: string, contentType: string) returns (result: Result<Document, Error>)
      requires embeddingService.Valid() && context.Valid()
      modifies context`documents, context`documentChunks, context`nextId
      ensures context.Valid() && old(context.nextId) <= context.nextId
      modifies embeddingService.client`requests, embeddingService.client`delays
      ensures ExtractText(file, contentType).Failure? ==>
        && result == Failure(ExtractText(file, contentType).error)
        && embeddingService.client.requests == old(embeddingService.client.requests)
        && embeddingService.client.delays == old(embeddingService.client.delays)
      ensures ExtractText(file, contentType).Success? ==>
        var texts := Chunks(ExtractText(file, contentType).value);
        var e := VoyageEmbedding.Embed(embeddingService.client.respond, |old(embeddingService.client.requests)|, texts);
        && embeddingService.client.requests == old(embeddingService.client.requests) + e.requests
        && embeddingService.client.delays == old(embeddingService.client.delays) + e.delays
        && (e.result.Failure? ==> result == Failure(e.result.error))
        && (e.result.Success? && |e.result.value| < |texts| ==> result == Failure(ArgumentOutOfRange))
        && (e.result.Success? && |texts| <= |e.result.value| ==>
              result.Success? && result.value.chunks == ChunkRows(result.value.id, texts, e.result.value))
      ensures result.Failure? ==>
        context.documents == old(context.documents) && context.documentChunks == old(context.documentChunks)
      ensures result.Success? ==>
        var d := result.value;
        && fresh(d) && d.filename == filename && d.fileType == contentType && d.processed
        && (forall e :: e in old(context.documents) ==> e.id != d.id)
        && context.documents == old(context.documents) + [d]
        && context.documentChunks == old(context.documentChunks) + d.chunks
    {
      var extracted := ExtractText(file, contentType);
      if extracted.Failure? {
        return Failure(extracted.error);
      }
      var chunkTexts := ChunkText(extracted.value);
      var embeddings := embeddingService.GenerateEmbeddings(chunkTexts);
      if embeddings.Failure? {
        return Failure(embeddings.error);
      }
      var id := context.NewId();
      var document := new Document(id, filename, contentType, true);
      var attached := AttachChunks(document, chunkTexts, embeddings.value);
      if attached.Failure? {
        return Failure(attached.error);
      }
      context.AddDocument(document);
      return Success(document);
    }
  }
}
