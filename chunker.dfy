/**
 * The file-processing tool: every input path becomes either one error entry
 * or the chunks of its extracted text. A text of fewer than 700 words is one
 * chunk; a longer one is cut into windows that start every 600 words and span
 * `[max(0, i - 100), min(i + 700, n))`, so consecutive windows overlap by 200
 * words and a text of exactly 700 words already takes the window branch.
 */
module Chunker {
  import opened Wrappers
  import opened Text

  /** A text with fewer words than this is a single chunk. */
  const SingleChunkLimit: nat := 700
  /** Distance between the offsets of two consecutive windows. */
  const Stride: nat := 600
  /** How far a window reaches back before its offset. */
  const BackOverlap: nat := 100
  /** How far a window reaches forward from its offset. */
  const WindowLength: nat := 700
  /** A chunk with fewer words than this is flagged low priority. */
  const LowPriorityLimit: nat := 150
  const LowPriority: string := "Basse"

  datatype Chunk = Chunk(text: string, partId: nat, priority: Option<string>, source: string)

  /** One entry of the tool's output list: a chunk, or a per-file error. */
  datatype Entry = Piece(chunk: Chunk) | Failure(message: string)

  function PriorityFor(wordCount: nat): Option<string> {
    if wordCount < LowPriorityLimit then Some(LowPriority) else None
  }

  function MakeChunk(ws: seq<string>, partId: nat, source: string): Chunk {
    Chunk(Join(" ", ws), partId, PriorityFor(|ws|), source)
  }

  // ---------------------------------------------------------------------
  // Window arithmetic
  // ---------------------------------------------------------------------

  /** Number of offsets `0, 600, 1200, ...` below `n`. */
  function WindowCount(n: nat): nat {
    (n + Stride - 1) / Stride
  }

  /** `max(0, i - 100)` for the offset `i = 600 * k`. */
  function WindowStart(k: nat): nat {
    if Stride * k >= BackOverlap then Stride * k - BackOverlap else 0
  }

  /** `min(i + 700, n)` for the offset `i = 600 * k`. */
  function WindowEnd(k: nat, n: nat): nat {
    if Stride * k + WindowLength <= n then Stride * k + WindowLength else n
  }

  /** Window `k` exists exactly when its offset lies inside the text. */
  lemma WindowExists(n: nat, k: nat)
    ensures k < WindowCount(n) <==> Stride * k < n
  {
  }

  /** A window that exists is a non-empty slice of the words. */
  lemma WindowBounds(n: nat, k: nat)
    requires k < WindowCount(n)
    ensures WindowStart(k) < WindowEnd(k, n) <= n
  {
    WindowExists(n, k);
  }

  /** The words of window `k` (0-based). */
  function Span(words: seq<string>, k: nat): seq<string>
    requires k < WindowCount(|words|)
  {
    WindowBounds(|words|, k);
    words[WindowStart(k)..WindowEnd(k, |words|)]
  }

  // ---------------------------------------------------------------------
  // The chunk list a text is cut into
  // ---------------------------------------------------------------------

  function ChunkCount(n: nat): nat {
    if n < SingleChunkLimit then 1 else WindowCount(n)
  }

  /** The words chunk `k` (0-based) is made of. */
  function ChunkSpan(words: seq<string>, k: nat): seq<string>
    requires k < ChunkCount(|words|)
  {
    if |words| < SingleChunkLimit then words else Span(words, k)
  }

  /** The chunks of a word sequence, as `_chunk_text` emits them. */
  function Chunks(words: seq<string>, source: string): (r: seq<Chunk>)
    ensures |r| == ChunkCount(|words|)
    ensures forall k :: 0 <= k < |r| ==> r[k] == MakeChunk(ChunkSpan(words, k), k + 1, source)
  {
    if |words| < SingleChunkLimit then [MakeChunk(words, 1, source)]
    else seq(WindowCount(|words|), k requires 0 <= k < WindowCount(|words|) =>
               MakeChunk(Span(words, k), k + 1, source))
  }

  /** `_chunk_text`: split on whitespace, then emit one chunk or the windows. */
  method ChunkText(text: string, fileName: string) returns (chunks: seq<Chunk>)
    ensures chunks == Chunks(Words(text), fileName)
  {
    var words := Words(text);
    var total := |words|;
    chunks := [];
    if total < SingleChunkLimit {
      chunks := chunks + [Chunk(Join(" ", words), 1, PriorityFor(total), fileName)];
    } else {
      var i := 0;
      while i < total
        invariant i == Stride * |chunks|
        invariant |chunks| <= WindowCount(total)
        invariant forall k :: 0 <= k < |chunks| ==> chunks[k] == MakeChunk(Span(words, k), k + 1, fileName)
      {
        WindowExists(total, |chunks|);
        var startIdx := if i >= BackOverlap then i - BackOverlap else 0;
        var endIdx := if i + WindowLength <= total then i + WindowLength else total;
        var chunkWords := words[startIdx..endIdx];
        chunks := chunks + [Chunk(Join(" ", chunkWords), |chunks| + 1, PriorityFor(|chunkWords|), fileName)];
        i := i + Stride;
      }
      WindowExists(total, |chunks|);
    }
  }

  // ---------------------------------------------------------------------
  // Properties of the chunk list
  // ---------------------------------------------------------------------

  /** Fewer than 700 words: one chunk holding all words joined by single spaces. */
  lemma ShortTextIsOneChunk(words: seq<string>, source: string)
    requires |words| < SingleChunkLimit
    ensures Chunks(words, source) == [Chunk(Join(" ", words), 1, PriorityFor(|words|), source)]
  {
  }

  /** At least 700 words: `ceil(n / 600)` windows. */
  lemma LongTextWindowCount(n: nat)
    requires n >= SingleChunkLimit
    ensures ChunkCount(n) >= 2
    ensures Stride * (ChunkCount(n) - 1) < n <= Stride * ChunkCount(n)
  {
    WindowExists(n, WindowCount(n) - 1);
    WindowExists(n, WindowCount(n));
  }

  /** Exactly 700 words gives two chunks, the second spanning words 500..699. */
  lemma SevenHundredWords(words: seq<string>, source: string)
    requires |words| == 700
    ensures |Chunks(words, source)| == 2
    ensures ChunkSpan(words, 0) == words[..700]
    ensures ChunkSpan(words, 1) == words[500..700]
  {
  }

  /** Chunk `k` of a long text spans `[max(0, 600k - 100), min(600k + 700, n))`. */
  lemma WindowSpan(words: seq<string>, source: string, k: nat)
    requires |words| >= SingleChunkLimit
    requires k < ChunkCount(|words|)
    ensures var lo := if 600 * k >= 100 then 600 * k - 100 else 0;
            var hi := if 600 * k + 700 <= |words| then 600 * k + 700 else |words|;
            lo < hi <= |words| && Chunks(words, source)[k].text == Join(" ", words[lo..hi])
  {
    WindowBounds(|words|, k);
  }

  /** Part ids are `1..count` in emission order, and every chunk names its file. */
  lemma PartIdsDense(words: seq<string>, source: string)
    ensures forall k :: 0 <= k < |Chunks(words, source)| ==>
              Chunks(words, source)[k].partId == k + 1 && Chunks(words, source)[k].source == source
  {
  }

  /** A chunk is flagged "Basse" exactly when it has fewer than 150 words. */
  lemma PriorityMeansShort(words: seq<string>, source: string, k: nat)
    requires k < |Chunks(words, source)|
    ensures Chunks(words, source)[k].priority == Some("Basse") <==> |ChunkSpan(words, k)| < 150
    ensures Chunks(words, source)[k].priority.None? <==> |ChunkSpan(words, k)| >= 150
  {
  }

  /**
   * Coverage: the first window starts at word 0, the last ends at word `n`,
   * each window starts before the previous one ends, and every word lies in
   * some window.
   */
  lemma WindowsCover(n: nat)
    requires n >= SingleChunkLimit
    ensures WindowStart(0) == 0
    ensures WindowEnd(WindowCount(n) - 1, n) == n
    ensures forall k {:trigger WindowStart(k)} :: 0 < k < WindowCount(n) ==>
              WindowStart(k) < WindowEnd(k - 1, n)
    ensures forall j :: 0 <= j < n ==> Covered(n, j)
  {
    LongTextWindowCount(n);
    forall k | 0 < k < WindowCount(n) ensures WindowStart(k) < WindowEnd(k - 1, n) {
      WindowExists(n, k);
    }
    forall j | 0 <= j < n ensures Covered(n, j) {
      var k := j / Stride;
      WindowExists(n, k);
      assert InWindow(n, k, j);
    }
  }

  /** Word `j` lies in window `k` of a text of `n` words. */
  predicate InWindow(n: nat, k: nat, j: nat) {
    k < WindowCount(n) && WindowStart(k) <= j < WindowEnd(k, n)
  }

  ghost predicate Covered(n: nat, j: nat) {
    exists k: nat :: InWindow(n, k, j)
  }

  /** Consecutive windows share exactly 200 words unless the earlier one is cut at the end. */
  lemma WindowOverlap(n: nat, k: nat)
    requires k + 1 < WindowCount(n)
    requires Stride * k + WindowLength <= n
    ensures WindowEnd(k, n) - WindowStart(k + 1) == 200
  {
  }

  /** The first chunk has at most 700 words and every later one at most 800. */
  lemma ChunkLengthBound(words: seq<string>, k: nat)
    requires k < ChunkCount(|words|)
    ensures k == 0 ==> |ChunkSpan(words, k)| <= 700
    ensures |ChunkSpan(words, k)| <= 800
  {
    if |words| >= SingleChunkLimit {
      WindowBounds(|words|, k);
    }
  }

  /** Splitting a chunk's text on whitespace gives back exactly the words of its span. */
  lemma ChunkTextWords(text: string, source: string, k: nat)
    requires k < |Chunks(Words(text), source)|
    ensures Words(Chunks(Words(text), source)[k].text) == ChunkSpan(Words(text), k)
  {
    var words := Words(text);
    var span := ChunkSpan(words, k);
    assert forall j :: 0 <= j < |span| ==> span[j] in words;
    WordsJoin(span);
  }

  // ---------------------------------------------------------------------
  // The per-file sequencing of `_run`
  // ---------------------------------------------------------------------

  /** `os.path.basename`: the part of the path after its last '/'. */
  function Basename(path: string): (b: string)
    ensures '/' !in b
    ensures |b| <= |path| && b == path[|path| - |b|..]
    decreases |path|
  {
    if |path| == 0 || path[|path| - 1] == '/' then ""
    else Basename(path[..|path| - 1]) + [path[|path| - 1]]
  }

  /** A base name is its own base name. */
  lemma {:induction false} BasenameIdempotent(name: string)
    requires '/' !in name
    ensures Basename(name) == name
    decreases |name|
  {
    if |name| > 0 {
      assert '/' !in name[..|name| - 1];
      BasenameIdempotent(name[..|name| - 1]);
    }
  }

  function NotFoundMessage(path: string): string {
    "Fichier non trouvé : " + path
  }

  function ExtractionFailedMessage(name: string): string {
    "Échec de l'extraction pour : " + name + ". Vérifiez le format ou l'intégrité du fichier."
  }

  /**
   * What one path contributes: an error when the file does not exist or its
   * extracted text is empty, otherwise its chunks. `exists` and `extract`
   * stand for `os.path.exists` and `_extract_text` (which already strips).
   */
  function FileEntries(path: string, isFile: string -> bool, extract: string -> string): seq<Entry> {
    if !isFile(path) then [Failure(NotFoundMessage(path))]
    else
      var name := Basename(path);
      var text := extract(path);
      if text == "" then [Failure(ExtractionFailedMessage(name))]
      else
        var cs := Chunks(Words(text), name);
        seq(|cs|, k requires 0 <= k < |cs| => Piece(cs[k]))
  }

  /** The entries of all paths, in input order. */
  function ProcessAll(paths: seq<string>, isFile: string -> bool, extract: string -> string): seq<Entry>
    decreases |paths|
  {
    if |paths| == 0 then []
    else ProcessAll(paths[..|paths| - 1], isFile, extract) + FileEntries(paths[|paths| - 1], isFile, extract)
  }

  /** `FileProcessingTool._run` */
  method ProcessFiles(paths: seq<string>, isFile: string -> bool, extract: string -> string)
    returns (entries: seq<Entry>)
    ensures entries == ProcessAll(paths, isFile, extract)
  {
    entries := [];
    var i := 0;
    while i < |paths|
      invariant 0 <= i <= |paths|
      invariant entries == ProcessAll(paths[..i], isFile, extract)
    {
      var path := paths[i];
      assert paths[..i + 1][..i] == paths[..i];
      if !isFile(path) {
        entries := entries + [Failure(NotFoundMessage(path))];
      } else {
        var name := Basename(path);
        var text := extract(path);
        if text == "" {
          entries := entries + [Failure(ExtractionFailedMessage(name))];
        } else {
          var chunks := ChunkText(text, name);
          entries := entries + seq(|chunks|, k requires 0 <= k < |chunks| => Piece(chunks[k]));
        }
      }
      i := i + 1;
    }
    assert paths[..|paths|] == paths;
  }

  /** A path yields one error entry exactly when it is missing or its text is empty. */
  lemma FileEntriesShape(path: string, isFile: string -> bool, extract: string -> string)
    ensures var es := FileEntries(path, isFile, extract);
            (!isFile(path) || extract(path) == "") <==> (|es| == 1 && es[0].Failure?)
    ensures var es := FileEntries(path, isFile, extract);
            isFile(path) && extract(path) != "" ==>
              |es| == |Chunks(Words(extract(path)), Basename(path))| &&
              forall k :: 0 <= k < |es| ==> es[k] == Piece(Chunks(Words(extract(path)), Basename(path))[k])
  {
    var es := FileEntries(path, isFile, extract);
    if isFile(path) && extract(path) != "" {
      assert es[0].Piece?;
    }
  }

  /** Every chunk entry names a base name as its source. */
  lemma {:induction false} SourcesAreBasenames(paths: seq<string>, isFile: string -> bool, extract: string -> string)
    ensures forall e :: e in ProcessAll(paths, isFile, extract) && e.Piece? ==>
              '/' !in e.chunk.source && Basename(e.chunk.source) == e.chunk.source
    decreases |paths|
  {
    if |paths| > 0 {
      var front, p := paths[..|paths| - 1], paths[|paths| - 1];
      SourcesAreBasenames(front, isFile, extract);
      FileSourcesNamed(p, isFile, extract);
      BasenameIdempotent(Basename(p));
      var es := ProcessAll(paths, isFile, extract);
      assert es == ProcessAll(front, isFile, extract) + FileEntries(p, isFile, extract);
    }
  }

  /** The chunks of one path all carry its base name. */
  lemma FileSourcesNamed(path: string, isFile: string -> bool, extract: string -> string)
    ensures forall e :: e in FileEntries(path, isFile, extract) && e.Piece? ==> e.chunk.source == Basename(path)
  {
    if isFile(path) && extract(path) != "" {
      var cs := Chunks(Words(extract(path)), Basename(path));
      PartIdsDense(Words(extract(path)), Basename(path));
      forall e | e in FileEntries(path, isFile, extract) ensures e.Piece? ==> e.chunk.source == Basename(path) {
        var k :| 0 <= k < |cs| && FileEntries(path, isFile, extract)[k] == e;
      }
    }
  }
}
