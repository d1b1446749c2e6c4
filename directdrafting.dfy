/**
 * The direct-drafting tool: the user names the `(file, part)` references to
 * draft, and the tool drafts each one in order, passing the tail of the
 * previous draft along for continuity. Every reference gives exactly one
 * entry of the report.
 */
module DirectDrafting {
  import opened Wrappers
  import opened Text
  import opened Chunker
  import opened Llm
  import opened Navigation

  /** The calls this tool makes, with the fields each prompt embeds. */
  datatype Request =
    | Digest(projectSynthesis: string)
    | Write(digest: string, fileName: string, fileInfo: string, partId: nat, chunkText: string, lastWords: string)

  const DigestFallback: string :=
    "Projet axé sur des objectifs stratégiques et techniques, nécessitant une analyse ciblée."
  const KeyError: string := "Erreur : Clé API non définie."
  const NothingProcessedError: string := "Erreur : Aucun fichier n\U{2019}a pu être traité."
  const NoInfo: string := "Informations non disponibles"

  /** A `(file_name, part_id)` reference chosen by the user. */
  type Reference = (string, nat)

  /** One entry of `works_text`. */
  datatype Note =
    | NoContent(name: string)
    | PartMissing(part: nat, name: string)
    | Drafted(name: string, part: nat, works: string)
    | NothingWritten(name: string, part: nat)
    | Failed(part: nat, name: string, message: string)

  function Render(n: Note): string {
    match n
    case NoContent(f) => "--- Aucun contenu pour " + f + " ---"
    case PartMissing(p, f) => "--- Morceau " + NatToString(p) + " non trouvé pour " + f + " ---"
    case Drafted(f, p, w) => "Travaux (source : " + f + ", partie " + NatToString(p) + ") : " + w
    case NothingWritten(f, p) => "--- Aucun travaux pour " + f + ", partie " + NatToString(p) + " ---"
    case Failed(p, f, m) => "Erreur lors de la rédaction du morceau " + NatToString(p) + " pour " + f + " : " + m
  }

  function Rendered(notes: seq<Note>): seq<string> {
    seq(|notes|, i requires 0 <= i < |notes| => Render(notes[i]))
  }

  // ---------------------------------------------------------------------
  // The pure parts: file information, chunk lookup, continuity tail
  // ---------------------------------------------------------------------

  /**
   * `file_info_dict.get(name, "Informations non disponibles")` over the
   * dictionary built from the zipped paths and infos: a later path with the
   * same basename overrides an earlier one.
   */
  function FileInfo(pairs: seq<(string, string)>, name: string): string
    decreases |pairs|
  {
    if |pairs| == 0 then NoInfo
    else if Basename(pairs[|pairs| - 1].0) == name then pairs[|pairs| - 1].1
    else FileInfo(pairs[..|pairs| - 1], name)
  }

  /** No path with that basename gives the default. */
  lemma {:induction false} FileInfoDefault(pairs: seq<(string, string)>, name: string)
    requires forall i :: 0 <= i < |pairs| ==> Basename(pairs[i].0) != name
    ensures FileInfo(pairs, name) == NoInfo
    decreases |pairs|
  {
    if |pairs| > 0 {
      var front := pairs[..|pairs| - 1];
      forall i | 0 <= i < |front| ensures Basename(front[i].0) != name {
        assert front[i] == pairs[i];
      }
      FileInfoDefault(front, name);
    }
  }

  /** Otherwise the info of the last path with that basename wins. */
  lemma {:induction false} FileInfoLastWins(pairs: seq<(string, string)>, name: string, j: nat)
    requires j < |pairs| && Basename(pairs[j].0) == name
    requires forall i :: j < i < |pairs| ==> Basename(pairs[i].0) != name
    ensures FileInfo(pairs, name) == pairs[j].1
    decreases |pairs|
  {
    if j < |pairs| - 1 {
      var front := pairs[..|pairs| - 1];
      assert front[j] == pairs[j];
      forall i | j < i < |front| ensures Basename(front[i].0) != name {
        assert front[i] == pairs[i];
      }
      FileInfoLastWins(front, name, j);
    }
  }

  /** `next(chunk for chunk in file_chunks if chunk['part_id'] == part_id)`: the first match. */
  function FindPart(chunks: seq<Chunk>, part: nat): (r: Option<nat>)
    ensures r.None? <==> forall k :: 0 <= k < |chunks| ==> chunks[k].partId != part
    ensures r.Some? ==> r.value < |chunks| && chunks[r.value].partId == part &&
                        forall k :: 0 <= k < r.value ==> chunks[k].partId != part
    decreases |chunks|
  {
    if |chunks| == 0 then None
    else if chunks[0].partId == part then Some(0)
    else match FindPart(chunks[1..], part)
      case None => None
      case Some(i) => Some(i + 1)
  }

  /** The number of words kept for continuity, and the number a previous draft needs. */
  const TailWords: nat := 30
  const MinWords: nat := 20

  /** `words[-30:]` */
  function Tail(ws: seq<string>): seq<string> {
    if |ws| <= TailWords then ws else ws[|ws| - TailWords..]
  }

  /** `" ".join(previous.split()[-30:])` when the previous draft has at least 20 words, else "". */
  function LastWords(previous: string): string {
    var ws := Words(previous);
    if previous != "" && |ws| >= MinWords then Join(" ", Tail(ws)) else ""
  }

  /**
   * Read back as words, the tail is exactly the last (at most 30) words of
   * the previous draft, and it is empty when that draft has fewer than 20 words.
   */
  lemma LastWordsAreTheTail(previous: string)
    ensures var ws := Words(previous);
            Words(LastWords(previous)) ==
              if |ws| < MinWords then [] else if |ws| <= TailWords then ws else ws[|ws| - TailWords..]
  {
    var ws := Words(previous);
    if |ws| >= MinWords {
      TailOfWords(ws);
      assert LastWords(previous) == Join(" ", Tail(ws));
    }
  }

  lemma TailOfWords(ws: seq<string>)
    requires forall k :: 0 <= k < |ws| ==> ws[k] != [] && NoSpace(ws[k])
    ensures Words(Join(" ", Tail(ws))) == Tail(ws)
  {
    var tail := Tail(ws);
    forall k | 0 <= k < |tail| ensures tail[k] != [] && NoSpace(tail[k]) {
      assert tail[k] == ws[|ws| - |tail| + k];
    }
    WordsJoin(tail);
  }

  // ---------------------------------------------------------------------
  // The batch
  // ---------------------------------------------------------------------

  /** `works_text` and `previous_travaux` after some of the references. */
  datatype Batch = Batch(notes: seq<Note>, previous: string)

  /** One iteration of the loop over references. */
  function Step(ask: Request -> Reply, digest: string, groups: map<string, seq<Chunk>>,
                pairs: seq<(string, string)>, b: Batch, r: Reference): Batch
  {
    var name := r.0;
    var part := r.1;
    if name !in groups then Batch(b.notes + [NoContent(name)], b.previous)
    else match FindPart(groups[name], part)
      case None => Batch(b.notes + [PartMissing(part, name)], b.previous)
      case Some(i) =>
        var request := Write(digest, name, FileInfo(pairs, name), part, ChunkShown(groups[name][i]), LastWords(b.previous));
        match ask(request)
        case Raised(m) => Batch(b.notes + [Failed(part, name, m)], b.previous)
        case Answer(t) =>
          var w := Strip(t);
          Batch(b.notes + [if w != "" then Drafted(name, part, w) else NothingWritten(name, part)], w)
  }

  function DraftAll(ask: Request -> Reply, digest: string, groups: map<string, seq<Chunk>>,
                    pairs: seq<(string, string)>, refs: seq<Reference>): Batch
    decreases |refs|
  {
    if |refs| == 0 then Batch([], "")
    else Step(ask, digest, groups, pairs, DraftAll(ask, digest, groups, pairs, refs[..|refs| - 1]), refs[|refs| - 1])
  }

  /** `DirectDraftingTool._run`: the text it returns (and writes to `works_output.txt`). */
  function DirectResult(provider: string, env: map<string, string>, paths: seq<string>, infos: seq<string>,
                        synthesis: string, refs: seq<Reference>, isFile: string -> bool,
                        extract: string -> string, ask: Request -> Reply): string
  {
    if !HasApiKey(env, provider) then KeyError
    else
      var digest := TextOr(ask(Digest(synthesis)), DigestFallback);
      var entries := ProcessAll(paths, isFile, extract);
      if NothingProcessed(entries) then NothingProcessedError
      else WorksReport(Rendered(DraftAll(ask, digest, GroupSpec(entries), Zip(paths, infos), refs).notes))
  }

  /** The loop over references, lines 113-169. */
  method DraftReferences(ask: Request -> Reply, digest: string, groups: map<string, seq<Chunk>>,
                         pairs: seq<(string, string)>, refs: seq<Reference>) returns (notes: seq<Note>)
    ensures notes == DraftAll(ask, digest, groups, pairs, refs).notes
  {
    notes := [];
    var previous := "";
    for i := 0 to |refs|
      invariant Batch(notes, previous) == DraftAll(ask, digest, groups, pairs, refs[..i])
    {
      assert refs[..i + 1][..i] == refs[..i];
      var name := refs[i].0;
      var part := refs[i].1;
      if name !in groups {
        notes := notes + [NoContent(name)];
        continue;
      }
      var found := FindPart(groups[name], part);
      if found.None? {
        notes := notes + [PartMissing(part, name)];
        continue;
      }
      var chunkText := ChunkShown(groups[name][found.value]);
      var reply := ask(Write(digest, name, FileInfo(pairs, name), part, chunkText, LastWords(previous)));
      if reply.Raised? {
        notes := notes + [Failed(part, name, reply.message)];
      } else {
        var works := Strip(reply.text);
        if works != "" {
          notes := notes + [Drafted(name, part, works)];
        } else {
          notes := notes + [NothingWritten(name, part)];
        }
        previous := works;
      }
    }
    assert refs[..|refs|] == refs;
  }

  /** The tool itself; it computes exactly `DirectResult`. */
  method RunDirectDrafting(provider: string, env: map<string, string>, paths: seq<string>, infos: seq<string>,
                           synthesis: string, refs: seq<Reference>, isFile: string -> bool,
                           extract: string -> string, ask: Request -> Reply) returns (text: string)
    ensures text == DirectResult(provider, env, paths, infos, synthesis, refs, isFile, extract, ask)
  {
    if !HasApiKey(env, provider) {
      return KeyError;
    }
    var digest := TextOr(ask(Digest(synthesis)), DigestFallback);
    var entries := ProcessFiles(paths, isFile, extract);
    if NothingProcessed(entries) {
      return NothingProcessedError;
    }
    var groups := GroupByFile(entries);
    assert groups == GroupSpec(entries);
    var notes := DraftReferences(ask, digest, groups, Zip(paths, infos), refs);
    text := WorksReport(Rendered(notes));
  }

  // ---------------------------------------------------------------------
  // Properties
  // ---------------------------------------------------------------------

  /** The entry a reference can give, and why. */
  predicate NoteFor(n: Note, r: Reference, groups: map<string, seq<Chunk>>) {
    match n
    case NoContent(f) => f == r.0 && f !in groups
    case PartMissing(p, f) => f == r.0 && p == r.1 && f in groups && FindPart(groups[f], p).None?
    case Drafted(f, p, w) => f == r.0 && p == r.1 && f in groups && FindPart(groups[f], p).Some? && w != ""
    case NothingWritten(f, p) => f == r.0 && p == r.1 && f in groups && FindPart(groups[f], p).Some?
    case Failed(p, f, _) => f == r.0 && p == r.1 && f in groups && FindPart(groups[f], p).Some?
  }

  /** The text of the latest call that answered, or "" before any. */
  function LastAnswer(notes: seq<Note>): string
    decreases |notes|
  {
    if |notes| == 0 then ""
    else
      var n := notes[|notes| - 1];
      if n.Drafted? then n.works
      else if n.NothingWritten? then ""
      else LastAnswer(notes[..|notes| - 1])
  }

  /**
   * Exactly one entry per reference, in reference order, each about its own
   * reference; and the continuity text is always the latest answer, so a
   * missing file, a missing part or a failed call leaves it unchanged.
   */
  lemma {:induction false} OneNotePerReference(ask: Request -> Reply, digest: string,
                                               groups: map<string, seq<Chunk>>, pairs: seq<(string, string)>,
                                               refs: seq<Reference>)
    ensures var b := DraftAll(ask, digest, groups, pairs, refs);
            && |b.notes| == |refs|
            && (forall i :: 0 <= i < |refs| ==> NoteFor(b.notes[i], refs[i], groups))
            && b.previous == LastAnswer(b.notes)
    decreases |refs|
  {
    if |refs| > 0 {
      var front, last := refs[..|refs| - 1], refs[|refs| - 1];
      OneNotePerReference(ask, digest, groups, pairs, front);
      var b0 := DraftAll(ask, digest, groups, pairs, front);
      StepAppendsOne(ask, digest, groups, pairs, b0, last);
      var b := Step(ask, digest, groups, pairs, b0, last);
      assert b == DraftAll(ask, digest, groups, pairs, refs);
      assert b.notes == b0.notes + [b.notes[|b0.notes|]];
      assert refs == front + [last];
      NotesForAppend(b0.notes, front, b.notes[|b0.notes|], last, groups);
    }
  }

  /** Extending both lists by an entry about its reference keeps every entry about its own reference. */
  lemma NotesForAppend(notes: seq<Note>, refs: seq<Reference>, n: Note, r: Reference, groups: map<string, seq<Chunk>>)
    requires |notes| == |refs| && forall i :: 0 <= i < |refs| ==> NoteFor(notes[i], refs[i], groups)
    requires NoteFor(n, r, groups)
    ensures forall i :: 0 <= i < |refs| + 1 ==> NoteFor((notes + [n])[i], (refs + [r])[i], groups)
  {
    forall i | 0 <= i < |refs| + 1 ensures NoteFor((notes + [n])[i], (refs + [r])[i], groups) {
      if i < |refs| {
        assert (notes + [n])[i] == notes[i] && (refs + [r])[i] == refs[i];
      }
    }
  }

  /** One step appends one entry about its reference, and moves the continuity text only on an answer. */
  lemma StepAppendsOne(ask: Request -> Reply, digest: string, groups: map<string, seq<Chunk>>,
                       pairs: seq<(string, string)>, b: Batch, r: Reference)
    requires b.previous == LastAnswer(b.notes)
    ensures var b' := Step(ask, digest, groups, pairs, b, r);
            && |b'.notes| == |b.notes| + 1
            && b'.notes[..|b.notes|] == b.notes
            && NoteFor(b'.notes[|b.notes|], r, groups)
            && b'.previous == LastAnswer(b'.notes)
  {
    var b' := Step(ask, digest, groups, pairs, b, r);
    assert b'.notes[..|b.notes|] == b.notes;
  }

  /** With no reference at all the report is the placeholder alone. */
  lemma NoReferenceGivesPlaceholder(provider: string, env: map<string, string>, paths: seq<string>,
                                    infos: seq<string>, synthesis: string, isFile: string -> bool,
                                    extract: string -> string, ask: Request -> Reply)
    requires HasApiKey(env, provider) && !NothingProcessed(ProcessAll(paths, isFile, extract))
    ensures DirectResult(provider, env, paths, infos, synthesis, [], isFile, extract, ask) == NothingDrafted
  {
  }

  /** A missing API key, or a batch where no file yields a chunk, ends the run with its error. */
  lemma EarlyExits(provider: string, env: map<string, string>, paths: seq<string>, infos: seq<string>,
                   synthesis: string, refs: seq<Reference>, isFile: string -> bool, extract: string -> string,
                   ask: Request -> Reply)
    ensures !HasApiKey(env, provider) ==>
              DirectResult(provider, env, paths, infos, synthesis, refs, isFile, extract, ask) == KeyError
    ensures HasApiKey(env, provider) && FileNames(ProcessAll(paths, isFile, extract)) == {} ==>
              DirectResult(provider, env, paths, infos, synthesis, refs, isFile, extract, ask) == NothingProcessedError
  {
    ProcessedMessagesNonEmpty(paths, isFile, extract);
    NothingProcessedMeansNoChunk(ProcessAll(paths, isFile, extract));
  }
}
