/**
 * What the strategy tool and the work-drafting tool share: the next-part
 * pointer and the loop guard on it, the parsers of the `Guess:` and
 * `Prochain morceau:` reply lines, and the grouping of chunk entries by file.
 */
module Navigation {
  import opened Wrappers
  import opened Text
  import opened Chunker

  /**
   * The value of `next_part_id`: an `int` (the start value 1, or an all-digit
   * token converted by `int`), or a `str` token (the sentinel "fin", or any
   * other word the model returned).
   */
  datatype Pointer = Part(n: nat) | Word(w: string)

  const Fin: string := "fin"
  const Start: Pointer := Part(1)

  /**
   * The `while` guard, clause by clause: truthy, not "fin", an int or an
   * all-digit string, and `1 <= int(p) <= total`.
   */
  predicate SourceGuard(p: Pointer, total: nat) {
    match p
    case Part(n) => n != 0 && 1 <= n <= total
    case Word(w) => w != "" && w != Fin && IsDigits(w) && 1 <= DigitsValue(w) <= total
  }

  /** The guard the loop is modelled with: an integer part inside `[1, total]`. */
  predicate InRange(p: Pointer, total: nat) {
    p.Part? && 1 <= p.n <= total
  }

  // ---------------------------------------------------------------------
  // Reply line parsers
  // ---------------------------------------------------------------------

  /** `label\s*:` at the start of the line: the text right after the colon. */
  function AfterLabel(line: string, key: string): (r: Option<string>)
  {
    if !StartsWith(line, key) then None
    else
      var rest := TrimStart(line[|key|..]);
      if |rest| > 0 && rest[0] == ':' then Some(rest[1..]) else None
  }

  /** `re.match(r"Guess\s*:\s*(.+)", line)`, group 1 stripped. */
  function ParseGuessLine(line: string): Option<string> {
    match AfterLabel(line, "Guess")
    case Some(rest) => if |rest| > 0 then Some(Strip(rest)) else None
    case None => None
  }

  /** The characters `\w` matches: ASCII letters, digits and '_'. */
  predicate IsWordChar(c: char) {
    'a' <= c <= 'z' || 'A' <= c <= 'Z' || IsDigit(c) || c == '_'
  }

  /** The longest prefix of word characters. */
  function WordRun(s: string): (w: string)
    decreases |s|
  {
    if |s| > 0 && IsWordChar(s[0]) then [s[0]] + WordRun(s[1..]) else []
  }

  /** `int(t) if t.isdigit() else t` */
  function PointerOf(token: string): Pointer {
    if IsDigits(token) then Part(DigitsValue(token)) else Word(token)
  }

  /** `re.match(r"Prochain morceau\s*:\s*(\w+)", line)`, group 1 converted. */
  function ParsePointerLine(line: string): Option<Pointer> {
    match AfterLabel(line, "Prochain morceau")
    case Some(rest) =>
      var token := WordRun(TrimStart(rest));
      if |token| > 0 then Some(PointerOf(token)) else None
    case None => None
  }

  /** `next_part if next_part is not None else "fin"` */
  function PointerOrFin(next: Option<Pointer>): Pointer {
    next.GetOr(Word(Fin))
  }

  /**
   * On every pointer the parser can produce (and on the "fin" default) the
   * source's guard is exactly "an int in `[1, total]`": a string pointer is
   * never all digits, so it always ends the loop.
   */
  lemma ParsedPointerGuard(line: string, total: nat)
    requires ParsePointerLine(line).Some?
    ensures SourceGuard(ParsePointerLine(line).value, total) <==> InRange(ParsePointerLine(line).value, total)
    ensures ParsePointerLine(line).value.Word? ==> !IsDigits(ParsePointerLine(line).value.w)
  {
  }

  lemma FinGuard(total: nat)
    ensures !SourceGuard(Word(Fin), total) && !InRange(Word(Fin), total)
  {
  }

  // ---------------------------------------------------------------------
  // The reply-parsing loop
  // ---------------------------------------------------------------------

  /**
   * The labelled first line each tool looks for: the strategy tool's
   * verdict line (`pertinent:`, label "Pertinent") and the work-drafting
   * tool's works line (`travaux:`, label "Travaux").
   */
  datatype Label = Label(prefix: string, name: string)

  const Verdict: Label := Label("pertinent:", "Pertinent")
  const Works: Label := Label("travaux:", "Travaux")

  /** What the loop's `if / elif` chain makes of one line. */
  datatype LineKind = Labelled(text: string) | GuessLine(guess: string) | PointerLine(next: Pointer) | OtherLine

  /** The three variables the loop overwrites: the labelled text, the guess and the next pointer. */
  datatype Evaluation = Evaluation(labelled: string, guess: string, next: Option<Pointer>)

  /** A pointer the loop guard judges the way `InRange` does: a string pointer is never all digits. */
  predicate PlainPointer(p: Pointer) {
    p.Word? ==> !IsDigits(p.w)
  }

  /**
   * The stripped line is tested, case-insensitively, for the label prefix
   * (its text is the line with `Label:` and `Label :` removed, stripped),
   * then for the guess pattern, then for the pointer pattern.
   */
  function Classify(raw: string, tag: Label): (k: LineKind)
    requires |tag.name| > 0
    ensures k.PointerLine? ==> PlainPointer(k.next)
  {
    var line := Strip(raw);
    if StartsWith(Lower(line), tag.prefix) then
      Labelled(Strip(RemoveAll(RemoveAll(line, tag.name + ":"), tag.name + " :")))
    else match ParseGuessLine(line)
      case Some(g) => GuessLine(g)
      case None =>
        match ParsePointerLine(line)
        case Some(p) => PointerLine(p)
        case None => OtherLine
  }

  function Kinds(lines: seq<string>, tag: Label): (ks: seq<LineKind>)
    requires |tag.name| > 0
    ensures |ks| == |lines|
  {
    seq(|lines|, i requires 0 <= i < |lines| => Classify(lines[i], tag))
  }

  /** The assignment the chain makes for one kind of line. */
  function Apply(e: Evaluation, k: LineKind): Evaluation {
    match k
    case Labelled(t) => e.(labelled := t)
    case GuessLine(g) => e.(guess := g)
    case PointerLine(p) => e.(next := Some(p))
    case OtherLine => e
  }

  function Fold(kinds: seq<LineKind>, e0: Evaluation): Evaluation
    decreases |kinds|
  {
    if |kinds| == 0 then e0 else Apply(Fold(kinds[..|kinds| - 1], e0), kinds[|kinds| - 1])
  }

  /** What the loop leaves in its three variables after reading a (stripped) reply. */
  function ScanSpec(result: string, tag: Label, e0: Evaluation): Evaluation
    requires |tag.name| > 0
  {
    Fold(Kinds(Split(result, '\n'), tag), e0)
  }

  /** The parsing loop: `for line in result.split("\n")` with its `if / elif` chain. */
  method Scan(result: string, tag: Label, e0: Evaluation) returns (e: Evaluation)
    requires |tag.name| > 0
    ensures e == ScanSpec(result, tag, e0)
  {
    var lines := Split(result, '\n');
    ghost var kinds := Kinds(lines, tag);
    var labelled, guess, next := e0.labelled, e0.guess, e0.next;
    var i := 0;
    while i < |lines|
      invariant 0 <= i <= |lines|
      invariant Evaluation(labelled, guess, next) == Fold(kinds[..i], e0)
    {
      assert kinds[..i + 1][..i] == kinds[..i];
      match Classify(lines[i], tag) {
        case Labelled(t) => labelled := t;
        case GuessLine(g) => guess := g;
        case PointerLine(p) => next := Some(p);
        case OtherLine =>
      }
      i := i + 1;
    }
    assert kinds[..|lines|] == kinds;
    e := Evaluation(labelled, guess, next);
  }

  /** Kinds after position `k` that are not labelled lines leave the labelled text alone. */
  lemma {:induction false} LabelledSettledBefore(kinds: seq<LineKind>, e0: Evaluation, k: nat)
    requires k <= |kinds|
    requires forall j :: k <= j < |kinds| ==> !kinds[j].Labelled?
    ensures Fold(kinds, e0).labelled == Fold(kinds[..k], e0).labelled
    decreases |kinds|
  {
    if |kinds| > k {
      LabelledSettledBefore(kinds[..|kinds| - 1], e0, k);
      assert kinds[..|kinds| - 1][..k] == kinds[..k];
    } else {
      assert kinds[..k] == kinds;
    }
  }

  lemma {:induction false} GuessSettledBefore(kinds: seq<LineKind>, e0: Evaluation, k: nat)
    requires k <= |kinds|
    requires forall j :: k <= j < |kinds| ==> !kinds[j].GuessLine?
    ensures Fold(kinds, e0).guess == Fold(kinds[..k], e0).guess
    decreases |kinds|
  {
    if |kinds| > k {
      GuessSettledBefore(kinds[..|kinds| - 1], e0, k);
      assert kinds[..|kinds| - 1][..k] == kinds[..k];
    } else {
      assert kinds[..k] == kinds;
    }
  }

  lemma {:induction false} PointerSettledBefore(kinds: seq<LineKind>, e0: Evaluation, k: nat)
    requires k <= |kinds|
    requires forall j :: k <= j < |kinds| ==> !kinds[j].PointerLine?
    ensures Fold(kinds, e0).next == Fold(kinds[..k], e0).next
    decreases |kinds|
  {
    if |kinds| > k {
      PointerSettledBefore(kinds[..|kinds| - 1], e0, k);
      assert kinds[..|kinds| - 1][..k] == kinds[..k];
    } else {
      assert kinds[..k] == kinds;
    }
  }

  /** Without a labelled line the start value is kept; with several, the last one wins. */
  lemma LabelledFromReply(kinds: seq<LineKind>, e0: Evaluation)
    ensures (forall j :: 0 <= j < |kinds| ==> !kinds[j].Labelled?) ==> Fold(kinds, e0).labelled == e0.labelled
    ensures forall j :: 0 <= j < |kinds| && kinds[j].Labelled? &&
                        (forall k :: j < k < |kinds| ==> !kinds[k].Labelled?) ==>
              Fold(kinds, e0).labelled == kinds[j].text
  {
    if forall j :: 0 <= j < |kinds| ==> !kinds[j].Labelled? {
      LabelledSettledBefore(kinds, e0, 0);
    }
    forall j | 0 <= j < |kinds| && kinds[j].Labelled? && (forall k :: j < k < |kinds| ==> !kinds[k].Labelled?)
      ensures Fold(kinds, e0).labelled == kinds[j].text
    {
      LabelledSettledBefore(kinds, e0, j + 1);
      assert kinds[..j + 1][..j] == kinds[..j];
    }
  }

  /** Without a `Guess:` line the previous guess is kept; with several, the last one wins. */
  lemma GuessFromReply(kinds: seq<LineKind>, e0: Evaluation)
    ensures (forall j :: 0 <= j < |kinds| ==> !kinds[j].GuessLine?) ==> Fold(kinds, e0).guess == e0.guess
    ensures forall j :: 0 <= j < |kinds| && kinds[j].GuessLine? &&
                        (forall k :: j < k < |kinds| ==> !kinds[k].GuessLine?) ==>
              Fold(kinds, e0).guess == kinds[j].guess
  {
    if forall j :: 0 <= j < |kinds| ==> !kinds[j].GuessLine? {
      GuessSettledBefore(kinds, e0, 0);
    }
    forall j | 0 <= j < |kinds| && kinds[j].GuessLine? && (forall k :: j < k < |kinds| ==> !kinds[k].GuessLine?)
      ensures Fold(kinds, e0).guess == kinds[j].guess
    {
      GuessSettledBefore(kinds, e0, j + 1);
      assert kinds[..j + 1][..j] == kinds[..j];
    }
  }

  /** Without a pointer line the pointer stays unset (so the walk goes to "fin"); otherwise the last one wins. */
  lemma NextFromReply(kinds: seq<LineKind>, e0: Evaluation)
    ensures (forall j :: 0 <= j < |kinds| ==> !kinds[j].PointerLine?) ==> Fold(kinds, e0).next == e0.next
    ensures forall j :: 0 <= j < |kinds| && kinds[j].PointerLine? &&
                        (forall k :: j < k < |kinds| ==> !kinds[k].PointerLine?) ==>
              Fold(kinds, e0).next == Some(kinds[j].next)
  {
    if forall j :: 0 <= j < |kinds| ==> !kinds[j].PointerLine? {
      PointerSettledBefore(kinds, e0, 0);
    }
    forall j | 0 <= j < |kinds| && kinds[j].PointerLine? && (forall k :: j < k < |kinds| ==> !kinds[k].PointerLine?)
      ensures Fold(kinds, e0).next == Some(kinds[j].next)
    {
      PointerSettledBefore(kinds, e0, j + 1);
      assert kinds[..j + 1][..j] == kinds[..j];
    }
  }

  lemma {:induction false} FoldedPointerPlain(kinds: seq<LineKind>, e0: Evaluation)
    requires forall j :: 0 <= j < |kinds| && kinds[j].PointerLine? ==> PlainPointer(kinds[j].next)
    requires e0.next.Some? ==> PlainPointer(e0.next.value)
    ensures Fold(kinds, e0).next.Some? ==> PlainPointer(Fold(kinds, e0).next.value)
    decreases |kinds|
  {
    if |kinds| > 0 {
      FoldedPointerPlain(kinds[..|kinds| - 1], e0);
    }
  }

  /**
   * Whatever the reply, the next pointer (`"fin"` when no pointer line was
   * read) continues the walk under the source's guard exactly when it is an
   * integer inside `[1, total]`.
   */
  lemma ScannedPointerGuard(result: string, tag: Label, guess: string, labelled: string, total: nat)
    requires |tag.name| > 0
    ensures var next := PointerOrFin(ScanSpec(result, tag, Evaluation(labelled, guess, None)).next);
            SourceGuard(next, total) <==> InRange(next, total)
  {
    FoldedPointerPlain(Kinds(Split(result, '\n'), tag), Evaluation(labelled, guess, None));
  }

  // ---------------------------------------------------------------------
  // Grouping chunk entries by file
  // ---------------------------------------------------------------------

  /** The chunks whose source is `name`, in entry order. */
  function ChunksNamed(entries: seq<Entry>, name: string): seq<Chunk>
    decreases |entries|
  {
    if |entries| == 0 then []
    else
      var last := entries[|entries| - 1];
      ChunksNamed(entries[..|entries| - 1], name) +
        (if last.Piece? && last.chunk.source == name then [last.chunk] else [])
  }

  /** The names some chunk entry carries. */
  function FileNames(entries: seq<Entry>): set<string> {
    set e | e in entries && e.Piece? :: e.chunk.source
  }

  lemma ChunksNamedAppend(entries: seq<Entry>, e: Entry, name: string)
    ensures ChunksNamed(entries + [e], name) ==
            ChunksNamed(entries, name) + (if e.Piece? && e.chunk.source == name then [e.chunk] else [])
  {
    assert (entries + [e])[..|entries|] == entries;
  }

  lemma FileNamesAppend(entries: seq<Entry>, e: Entry)
    ensures FileNames(entries + [e]) == FileNames(entries) + (if e.Piece? then {e.chunk.source} else {})
  {
  }

  /** `groups` is the grouping of `entries`: its names, each with its chunks in order. */
  ghost predicate GroupsOf(groups: map<string, seq<Chunk>>, entries: seq<Entry>) {
    && groups.Keys == FileNames(entries)
    && (forall name :: name in groups ==> groups[name] == ChunksNamed(entries, name))
    && (forall name :: name !in groups ==> ChunksNamed(entries, name) == [])
  }

  /** One iteration of the grouping loop: a chunk entry goes to the end of its file's list. */
  lemma GroupStep(groups: map<string, seq<Chunk>>, entries: seq<Entry>, e: Entry)
    requires GroupsOf(groups, entries)
    ensures e.Piece? ==>
              var name := e.chunk.source;
              var old_ := if name in groups then groups[name] else [];
              GroupsOf(groups[name := old_ + [e.chunk]], entries + [e])
    ensures e.Failure? ==> GroupsOf(groups, entries + [e])
  {
    FileNamesAppend(entries, e);
    forall name {
      ChunksNamedAppend(entries, e, name);
    }
  }

  /** The grouping loop of the tools (`chunks_by_file`). */
  method GroupByFile(entries: seq<Entry>) returns (groups: map<string, seq<Chunk>>)
    ensures groups.Keys == FileNames(entries)
    ensures forall name :: name in groups ==> groups[name] == ChunksNamed(entries, name)
  {
    groups := map[];
    var i := 0;
    while i < |entries|
      invariant 0 <= i <= |entries|
      invariant GroupsOf(groups, entries[..i])
    {
      var e := entries[i];
      assert entries[..i + 1] == entries[..i] + [e];
      GroupStep(groups, entries[..i], e);
      if e.Piece? {
        // a name seen for the first time starts an empty list; the chunk goes to its end
        var name := e.chunk.source;
        var prior := if name in groups then groups[name] else [];
        groups := groups[name := prior + [e.chunk]];
      }
      i := i + 1;
    }
    assert entries[..|entries|] == entries;
  }

  /**
   * `not all_chunks or all(chunk.get("error") for chunk in all_chunks)`:
   * there is nothing, or every entry is an error with a non-empty message.
   */
  predicate NothingProcessed(entries: seq<Entry>) {
    |entries| == 0 || forall k :: 0 <= k < |entries| ==> entries[k].Failure? && entries[k].message != ""
  }

  /** When every error message is non-empty, "nothing processed" means "no chunk at all". */
  predicate MessagesNonEmpty(entries: seq<Entry>) {
    forall k :: 0 <= k < |entries| && entries[k].Failure? ==> entries[k].message != ""
  }

  lemma NothingProcessedMeansNoChunk(entries: seq<Entry>)
    requires MessagesNonEmpty(entries)
    ensures NothingProcessed(entries) <==> FileNames(entries) == {}
  {
    forall k | 0 <= k < |entries|
      ensures entries[k].Piece? ==> entries[k].chunk.source in FileNames(entries)
    {
      assert entries[k] in entries;
    }
  }

  /** One path's entries carry non-empty error messages. */
  lemma FileMessagesNonEmpty(path: string, isFile: string -> bool, extract: string -> string)
    ensures MessagesNonEmpty(FileEntries(path, isFile, extract))
  {
    var es := FileEntries(path, isFile, extract);
    if !isFile(path) {
      assert es == [Failure(NotFoundMessage(path))];
      assert |NotFoundMessage(path)| > 0;
    } else if extract(path) == "" {
      assert es == [Failure(ExtractionFailedMessage(Basename(path)))];
      assert |ExtractionFailedMessage(Basename(path))| > 0;
    } else {
      var cs := Chunks(Words(extract(path)), Basename(path));
      assert es == seq(|cs|, k requires 0 <= k < |cs| => Piece(cs[k]));
      assert forall k :: 0 <= k < |es| ==> es[k].Piece?;
    }
  }

  lemma MessagesNonEmptyAppend(a: seq<Entry>, b: seq<Entry>)
    requires MessagesNonEmpty(a) && MessagesNonEmpty(b)
    ensures MessagesNonEmpty(a + b)
  {
    forall k | 0 <= k < |a + b| && (a + b)[k].Failure? ensures (a + b)[k].message != "" {
      if k < |a| {
        assert (a + b)[k] == a[k];
      } else {
        assert (a + b)[k] == b[k - |a|];
      }
    }
  }

  /** The file-processing tool never reports an error with an empty message. */
  lemma {:induction false} ProcessedMessagesNonEmpty(paths: seq<string>, isFile: string -> bool, extract: string -> string)
    ensures MessagesNonEmpty(ProcessAll(paths, isFile, extract))
    decreases |paths|
  {
    if |paths| > 0 {
      ProcessedMessagesNonEmpty(paths[..|paths| - 1], isFile, extract);
      FileMessagesNonEmpty(paths[|paths| - 1], isFile, extract);
      MessagesNonEmptyAppend(ProcessAll(paths[..|paths| - 1], isFile, extract),
                             FileEntries(paths[|paths| - 1], isFile, extract));
    }
  }

  // ---------------------------------------------------------------------
  // What a walk over one file keeps track of
  // ---------------------------------------------------------------------

  /** The chunk text a prompt shows: `text.strip() if text else 'Morceau vide'`. */
  function ChunkShown(c: Chunk): string {
    if c.text == "" then "Morceau vide" else Strip(c.text)
  }

  const NothingDrafted: string := "Aucun travaux rédigé pour les fichiers traités."

  /** `"\n\n".join(works_text)` of the drafting tools, with the placeholder when there is no entry. */
  function WorksReport(entries: seq<string>): string {
    Join("\n\n", if |entries| == 0 then [NothingDrafted] else entries)
  }

  /** The report is the placeholder exactly for an empty entry list, and otherwise opens with the first entry. */
  lemma WorksReportShape(entries: seq<string>)
    ensures |entries| == 0 ==> WorksReport(entries) == NothingDrafted
    ensures |entries| > 0 ==> StartsWith(WorksReport(entries), entries[0])
  {
    if |entries| > 1 {
      var r := entries[0] + "\n\n" + Join("\n\n", entries[1..]);
      assert WorksReport(entries) == r;
      assert r[..|entries[0]|] == entries[0];
    }
  }

  /** What the walk of one file needs to know. */
  datatype FileCtx = FileCtx(name: string, info: string, digest: string, chunks: seq<Chunk>)

  /** The parts of `[1, total]` not yet visited; it shrinks at every step of a walk. */
  function Unvisited(total: nat, visited: seq<nat>): set<nat> {
    set i: nat | 1 <= i <= total && i !in visited
  }

  /** Visiting a part not yet visited shrinks the unvisited set. */
  lemma UnvisitedShrinks(total: nat, visited: seq<nat>, part: nat)
    requires 1 <= part <= total && part !in visited
    ensures Unvisited(total, visited + [part]) < Unvisited(total, visited)
  {
    assert part in Unvisited(total, visited);
  }

  /** `chunks_by_file` */
  function GroupSpec(entries: seq<Entry>): map<string, seq<Chunk>> {
    map name | name in FileNames(entries) :: ChunksNamed(entries, name)
  }

  /** `zip(file_paths, file_infos)` */
  function Zip(paths: seq<string>, infos: seq<string>): (z: seq<(string, string)>)
    ensures |z| <= |paths| && |z| <= |infos|
    ensures |z| == |paths| || |z| == |infos|
  {
    var n := if |paths| <= |infos| then |paths| else |infos|;
    seq(n, i requires 0 <= i < n => (paths[i], infos[i]))
  }

  predicate Distinct<T(==)>(s: seq<T>) {
    forall i, j :: 0 <= i < j < |s| ==> s[i] != s[j]
  }

  /** Visited parts are distinct and inside `[1, total]`. */
  predicate ValidVisited(visited: seq<nat>, total: nat) {
    Distinct(visited) && forall i :: 0 <= i < |visited| ==> 1 <= visited[i] <= total
  }

  function Elements(s: seq<nat>): set<nat> {
    set x | x in s
  }

  lemma {:induction false} DistinctElements(s: seq<nat>)
    requires Distinct(s)
    ensures |Elements(s)| == |s|
    decreases |s|
  {
    if |s| > 0 {
      var front := s[..|s| - 1];
      DistinctElements(front);
      assert Elements(s) == Elements(front) + {s[|s| - 1]};
      assert s[|s| - 1] !in Elements(front);
    }
  }

  /** `Unvisited(total, [])` is the whole range `[1, total]`. */
  lemma {:induction false} RangeSize(total: nat)
    ensures |Unvisited(total, [])| == total
    decreases total
  {
    if total > 0 {
      RangeSize(total - 1);
      assert Unvisited(total, []) == Unvisited(total - 1, []) + {total};
    }
  }

  lemma {:induction false} SubsetSize(a: set<nat>, b: set<nat>)
    requires a <= b
    ensures |a| <= |b|
    decreases |b|
  {
    if a != {} {
      var x :| x in a;
      SubsetSize(a - {x}, b - {x});
    }
  }

  /** Distinct parts inside `[1, total]` number at most `total`. */
  lemma VisitedBound(visited: seq<nat>, total: nat)
    requires ValidVisited(visited, total)
    ensures |visited| <= total
  {
    DistinctElements(visited);
    RangeSize(total);
    SubsetSize(Elements(visited), Unvisited(total, []));
  }

}
