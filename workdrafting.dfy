/**
 * The work-drafting tool. It walks each file's chunks exactly as the
 * strategy tool does (initial guess, then one part at a time, the model
 * choosing the next part), but at each step it asks the model to redraft
 * the chunk as work carried out, and collects the drafted texts and the
 * error notes into one report.
 */
module WorkDrafting {
  import opened Wrappers
  import opened Text
  import opened Chunker
  import opened Llm
  import opened Navigation

  /** The calls this tool makes, with the fields each prompt embeds. */
  datatype Request =
    | Digest(projectSynthesis: string)
    | InitialGuess(projectSynthesis: string, fileName: string, fileInfo: string)
    | Draft(digest: string, fileName: string, fileInfo: string, total: nat, visited: seq<nat>, guess: string,
            partId: nat, chunkText: string)

  const DigestFallback: string :=
    "Projet axé sur des objectifs stratégiques et techniques, nécessitant une analyse ciblée des données."
  const NotDrafted: string := "pas rédigé"
  const NothingProcessedError: string := "Erreur : Aucun fichier n\U{2019}a pu être traité."

  function KeyError(provider: string): string {
    "Erreur : Clé API pour " + QuotedKeyVariable(provider) + " non définie."
  }

  /** One entry of `works_text`. */
  datatype Note =
    | NoContent(name: string)
    | GuessFailed(name: string, message: string)
    | AlreadyDone(part: nat, name: string)
    | StepFailed(part: nat, name: string, message: string)
    | Drafted(name: string, works: string)

  /** The text each entry is appended as. */
  function Render(n: Note): string {
    match n
    case NoContent(f) => "--- Aucun contenu pour " + f + " ---"
    case GuessFailed(f, m) => "Erreur lors du guess initial pour " + f + " : " + m
    case AlreadyDone(p, f) => "Erreur : Morceau " + NatToString(p) + " déjà traité pour " + f + ". Passage à fin."
    case StepFailed(p, f, m) => "Erreur lors du traitement du morceau " + NatToString(p) + " pour " + f + " : " + m
    case Drafted(f, w) => "Travaux (source : " + f + ") : " + w
  }

  // ---------------------------------------------------------------------
  // The reply
  // ---------------------------------------------------------------------

  /** What the walk does with a reply: the drafted works, the new guess and the next pointer. */
  datatype Outcome = Outcome(works: string, guess: string, next: Pointer)

  /** The parse of a (stripped) reply: the loop starts from empty works and the current guess. */
  function ReadDraft(result: string, guess: string): Outcome {
    var e := ScanSpec(result, Works, Evaluation("", guess, None));
    Outcome(e.labelled, e.guess, PointerOrFin(e.next))
  }

  /** The parsing loop of lines 241-271. */
  method ParseDraft(result: string, guess: string) returns (o: Outcome)
    ensures o == ReadDraft(result, guess)
  {
    var e := Scan(result, Works, Evaluation("", guess, None));
    o := Outcome(e.labelled, e.guess, PointerOrFin(e.next));
  }

  /** `if works:` and `works != "pas rédigé"` */
  predicate Kept(works: string) {
    works != "" && works != NotDrafted
  }

  /** The walk's guard on the parsed pointer is the source's guard, for every file length. */
  lemma ReadPointerGuard(result: string, guess: string, total: nat)
    ensures SourceGuard(ReadDraft(result, guess).next, total) <==> InRange(ReadDraft(result, guess).next, total)
  {
    ScannedPointerGuard(result, Works, guess, "", total);
  }

  // ---------------------------------------------------------------------
  // The walk over one file
  // ---------------------------------------------------------------------

  /** Where a walk ends: the visited list, the last guess and the notes so far. */
  datatype Walk = Walk(visited: seq<nat>, guess: string, notes: seq<Note>)

  /**
   * The `while` loop of lines 164-294, from pointer `p` on; `read` is the
   * reply parser (the tool uses `ReadDraft`; the walk's own properties hold
   * for any). A repeated part ends the walk with a note, and so does a step
   * whose call raises.
   */
  function WalkFrom(ctx: FileCtx, ask: Request -> Reply, read: (string, string) -> Outcome, p: Pointer,
                    visited: seq<nat>, guess: string, notes: seq<Note>): Walk
    decreases Unvisited(|ctx.chunks|, visited)
  {
    var total := |ctx.chunks|;
    if !InRange(p, total) then Walk(visited, guess, notes)
    else if p.n in visited then Walk(visited, guess, notes + [AlreadyDone(p.n, ctx.name)])
    else
      var visited' := visited + [p.n];
      UnvisitedShrinks(total, visited, p.n);
      match ask(Draft(ctx.digest, ctx.name, ctx.info, total, visited', guess, ctx.chunks[p.n - 1].partId, ctx.chunks[p.n - 1].text))
      case Raised(m) => Walk(visited', guess, notes + [StepFailed(p.n, ctx.name, m)])
      case Answer(t) =>
        var o := read(Strip(t), guess);
        var notes' := if Kept(o.works) then notes + [Drafted(ctx.name, o.works)] else notes;
        WalkFrom(ctx, ask, read, o.next, visited', o.guess, notes')
  }

  /** The loop itself. */
  method WalkFile(ctx: FileCtx, ask: Request -> Reply, visited0: seq<nat>, guess0: string, notes0: seq<Note>)
    returns (w: Walk)
    ensures w == WalkFrom(ctx, ask, ReadDraft, Start, visited0, guess0, notes0)
  {
    var total := |ctx.chunks|;
    var visited, guess, notes := visited0, guess0, notes0;
    var p := Start;
    while InRange(p, total)
      invariant WalkFrom(ctx, ask, ReadDraft, p, visited, guess, notes) ==
                WalkFrom(ctx, ask, ReadDraft, Start, visited0, guess0, notes0)
      decreases Unvisited(total, visited)
    {
      if p.n in visited {
        notes := notes + [AlreadyDone(p.n, ctx.name)];
        break;
      }
      var part := p.n;
      UnvisitedShrinks(total, visited, part);
      visited := visited + [part];
      var r := ask(Draft(ctx.digest, ctx.name, ctx.info, total, visited, guess, ctx.chunks[part - 1].partId, ctx.chunks[part - 1].text));
      if r.Raised? {
        notes := notes + [StepFailed(part, ctx.name, r.message)];
        p := Word(Fin);
      } else {
        var o := ParseDraft(Strip(r.text), guess);
        if Kept(o.works) {
          notes := notes + [Drafted(ctx.name, o.works)];
        }
        guess := o.guess;
        p := o.next;
      }
    }
    w := Walk(visited, guess, notes);
  }

  // ---------------------------------------------------------------------
  // The whole run
  // ---------------------------------------------------------------------

  /** `processed_chunks` and `works_text` after some of the files. */
  datatype Run = Run(processed: map<string, seq<nat>>, notes: seq<Note>)

  /** One iteration of the loop over files. */
  function FileStep(ask: Request -> Reply, synthesis: string, digest: string, groups: map<string, seq<Chunk>>,
                    st: Run, path: string, info: string): Run
  {
    var name := Basename(path);
    if name !in groups then Run(st.processed, st.notes + [NoContent(name)])
    else
      var processed := if name in st.processed then st.processed else st.processed[name := []];
      match ask(InitialGuess(synthesis, name, info))
      case Raised(m) => Run(processed, st.notes + [GuessFailed(name, m)])
      case Answer(t) =>
        var w := WalkFrom(FileCtx(name, info, digest, groups[name]), ask, ReadDraft, Start, processed[name], Strip(t), st.notes);
        Run(processed[name := w.visited], w.notes)
  }

  function Files(ask: Request -> Reply, synthesis: string, digest: string, groups: map<string, seq<Chunk>>,
                 pairs: seq<(string, string)>): Run
    decreases |pairs|
  {
    if |pairs| == 0 then Run(map[], [])
    else
      var last := pairs[|pairs| - 1];
      FileStep(ask, synthesis, digest, groups, Files(ask, synthesis, digest, groups, pairs[..|pairs| - 1]), last.0, last.1)
  }

  /** The rendered entries, in order. */
  function Rendered(notes: seq<Note>): seq<string> {
    seq(|notes|, i requires 0 <= i < |notes| => Render(notes[i]))
  }

  /** `WorkDraftingTool._run`: the text it returns (and writes to `works_output.txt`). */
  function WorkResult(provider: string, env: map<string, string>, paths: seq<string>, infos: seq<string>,
                      synthesis: string, isFile: string -> bool, extract: string -> string,
                      ask: Request -> Reply): string
  {
    if !HasApiKey(env, provider) then KeyError(provider)
    else
      var digest := TextOr(ask(Digest(synthesis)), DigestFallback);
      var entries := ProcessAll(paths, isFile, extract);
      if NothingProcessed(entries) then NothingProcessedError
      else WorksReport(Rendered(Files(ask, synthesis, digest, GroupSpec(entries), Zip(paths, infos)).notes))
  }

  /** The loop over files, lines 139-296. */
  method DraftFiles(ask: Request -> Reply, synthesis: string, digest: string, groups: map<string, seq<Chunk>>,
                    pairs: seq<(string, string)>) returns (notes: seq<Note>)
    ensures notes == Files(ask, synthesis, digest, groups, pairs).notes
  {
    var processed: map<string, seq<nat>> := map[];
    notes := [];
    var i := 0;
    while i < |pairs|
      invariant 0 <= i <= |pairs|
      invariant Run(processed, notes) == Files(ask, synthesis, digest, groups, pairs[..i])
    {
      assert pairs[..i + 1][..i] == pairs[..i];
      var path := pairs[i].0;
      var info := pairs[i].1;
      var name := Basename(path);
      if name !in groups {
        notes := notes + [NoContent(name)];
      } else {
        if name !in processed {
          processed := processed[name := []];
        }
        var reply := ask(InitialGuess(synthesis, name, info));
        if reply.Raised? {
          notes := notes + [GuessFailed(name, reply.message)];
        } else {
          var w := WalkFile(FileCtx(name, info, digest, groups[name]), ask, processed[name], Strip(reply.text), notes);
          notes := w.notes;
          processed := processed[name := w.visited];
        }
      }
      i := i + 1;
    }
    assert pairs[..|pairs|] == pairs;
  }

  /** The tool itself; it computes exactly `WorkResult`. */
  method RunWorkDrafting(provider: string, env: map<string, string>, paths: seq<string>, infos: seq<string>,
                         synthesis: string, isFile: string -> bool, extract: string -> string,
                         ask: Request -> Reply) returns (text: string)
    ensures text == WorkResult(provider, env, paths, infos, synthesis, isFile, extract, ask)
  {
    if !HasApiKey(env, provider) {
      return KeyError(provider);
    }
    var digest := TextOr(ask(Digest(synthesis)), DigestFallback);
    var entries := ProcessFiles(paths, isFile, extract);
    if NothingProcessed(entries) {
      return NothingProcessedError;
    }
    var groups := GroupByFile(entries);
    assert groups == GroupSpec(entries);
    var notes := DraftFiles(ask, synthesis, digest, groups, Zip(paths, infos));
    text := WorksReport(Rendered(notes));
  }

  // ---------------------------------------------------------------------
  // Properties
  // ---------------------------------------------------------------------

  /**
   * What a walk of a file with `total` parts can append: works that were
   * kept, and errors about a part inside `[1, total]`.
   */
  predicate WalkNote(n: Note, name: string, total: nat) {
    n.name == name &&
    match n
    case Drafted(_, w) => Kept(w)
    case AlreadyDone(p, _) => 1 <= p <= total
    case StepFailed(p, _, _) => 1 <= p <= total
    case _ => false
  }

  /**
   * A walk only appends. Its new notes are notes of its own file, drafted
   * works that were kept ("pas rédigé" and empty works never appear), and at
   * most one error, which comes last; there is at most one note per newly
   * visited part, plus that error.
   */
  lemma {:induction false} WalkNotes(ctx: FileCtx, ask: Request -> Reply, read: (string, string) -> Outcome,
                                     p: Pointer, visited: seq<nat>, guess: string, notes: seq<Note>)
    ensures var w := WalkFrom(ctx, ask, read, p, visited, guess, notes);
            && visited <= w.visited
            && notes <= w.notes
            && (forall i :: |notes| <= i < |w.notes| ==> WalkNote(w.notes[i], ctx.name, |ctx.chunks|))
            && (forall i :: |notes| <= i < |w.notes| - 1 ==> w.notes[i].Drafted?)
            && |w.notes| - |notes| <= |w.visited| - |visited| + 1
    decreases Unvisited(|ctx.chunks|, visited)
  {
    var total := |ctx.chunks|;
    if InRange(p, total) && p.n !in visited {
      var visited' := visited + [p.n];
      UnvisitedShrinks(total, visited, p.n);
      match ask(Draft(ctx.digest, ctx.name, ctx.info, total, visited', guess, ctx.chunks[p.n - 1].partId, ctx.chunks[p.n - 1].text))
      case Raised(m) =>
      case Answer(t) =>
        var o := read(Strip(t), guess);
        var notes' := if Kept(o.works) then notes + [Drafted(ctx.name, o.works)] else notes;
        WalkNotes(ctx, ask, read, o.next, visited', o.guess, notes');
        var w := WalkFrom(ctx, ask, read, o.next, visited', o.guess, notes');
        forall i | |notes| <= i < |w.notes| ensures WalkNote(w.notes[i], ctx.name, total) {
          if i < |notes'| {
            assert w.notes[i] == notes'[i];
          }
        }
        forall i | |notes| <= i < |w.notes| - 1 ensures w.notes[i].Drafted? {
          if i < |notes'| {
            assert w.notes[i] == notes'[i];
          }
        }
    }
  }

  /** A walk keeps the visited list distinct and inside `[1, total]`. */
  lemma {:induction false} WalkVisitedValid(ctx: FileCtx, ask: Request -> Reply, read: (string, string) -> Outcome,
                                            p: Pointer, visited: seq<nat>, guess: string, notes: seq<Note>)
    requires ValidVisited(visited, |ctx.chunks|)
    ensures ValidVisited(WalkFrom(ctx, ask, read, p, visited, guess, notes).visited, |ctx.chunks|)
    decreases Unvisited(|ctx.chunks|, visited)
  {
    var total := |ctx.chunks|;
    if InRange(p, total) && p.n !in visited {
      var visited' := visited + [p.n];
      UnvisitedShrinks(total, visited, p.n);
      assert ValidVisited(visited', total);
      match ask(Draft(ctx.digest, ctx.name, ctx.info, total, visited', guess, ctx.chunks[p.n - 1].partId, ctx.chunks[p.n - 1].text))
      case Raised(m) =>
      case Answer(t) =>
        var o := read(Strip(t), guess);
        var notes' := if Kept(o.works) then notes + [Drafted(ctx.name, o.works)] else notes;
        WalkVisitedValid(ctx, ask, read, o.next, visited', o.guess, notes');
    }
  }

  /** A pointer to a part already processed ends the file's walk at once, with a note saying so. */
  lemma RevisitStops(ctx: FileCtx, ask: Request -> Reply, read: (string, string) -> Outcome, p: Pointer,
                     visited: seq<nat>, guess: string, notes: seq<Note>)
    requires InRange(p, |ctx.chunks|) && p.n in visited
    ensures WalkFrom(ctx, ask, read, p, visited, guess, notes) == Walk(visited, guess, notes + [AlreadyDone(p.n, ctx.name)])
  {
  }

  /** In particular a file seen again under the same name stops at once: part 1 was already processed. */
  lemma RevisitStopsAtOnce(ctx: FileCtx, ask: Request -> Reply, read: (string, string) -> Outcome,
                           visited: seq<nat>, guess: string, notes: seq<Note>)
    requires |ctx.chunks| >= 1 && 1 in visited
    ensures WalkFrom(ctx, ask, read, Start, visited, guess, notes) == Walk(visited, guess, notes + [AlreadyDone(1, ctx.name)])
  {
    RevisitStops(ctx, ask, read, Start, visited, guess, notes);
  }

  /** Every note of a run is consistent with the chunks found for its file. */
  predicate NoteFits(n: Note, groups: map<string, seq<Chunk>>) {
    match n
    case NoContent(f) => f !in groups
    case GuessFailed(f, _) => f in groups
    case AlreadyDone(p, f) => f in groups && 1 <= p <= |groups[f]|
    case StepFailed(p, f, _) => f in groups && 1 <= p <= |groups[f]|
    case Drafted(f, w) => f in groups && Kept(w)
  }

  predicate RunInvariant(run: Run, groups: map<string, seq<Chunk>>) {
    && (forall name :: name in run.processed ==> name in groups && ValidVisited(run.processed[name], |groups[name]|))
    && (forall i :: 0 <= i < |run.notes| ==> NoteFits(run.notes[i], groups))
  }

  lemma FileStepPreserves(ask: Request -> Reply, synthesis: string, digest: string,
                          groups: map<string, seq<Chunk>>, st: Run, path: string, info: string)
    requires RunInvariant(st, groups)
    ensures RunInvariant(FileStep(ask, synthesis, digest, groups, st, path, info), groups)
  {
    var name := Basename(path);
    if name in groups {
      var processed := if name in st.processed then st.processed else st.processed[name := []];
      match ask(InitialGuess(synthesis, name, info))
      case Raised(m) =>
      case Answer(t) =>
        var ctx := FileCtx(name, info, digest, groups[name]);
        WalkNotes(ctx, ask, ReadDraft, Start, processed[name], Strip(t), st.notes);
        WalkVisitedValid(ctx, ask, ReadDraft, Start, processed[name], Strip(t), st.notes);
        var w := WalkFrom(ctx, ask, ReadDraft, Start, processed[name], Strip(t), st.notes);
        forall i | 0 <= i < |w.notes| ensures NoteFits(w.notes[i], groups) {
          if i < |st.notes| {
            assert w.notes[i] == st.notes[i];
          } else {
            assert WalkNote(w.notes[i], name, |groups[name]|);
          }
        }
    }
  }

  lemma {:induction false} FilesPreserve(ask: Request -> Reply, synthesis: string, digest: string,
                                         groups: map<string, seq<Chunk>>, pairs: seq<(string, string)>)
    ensures RunInvariant(Files(ask, synthesis, digest, groups, pairs), groups)
    decreases |pairs|
  {
    if |pairs| > 0 {
      FilesPreserve(ask, synthesis, digest, groups, pairs[..|pairs| - 1]);
      var last := pairs[|pairs| - 1];
      FileStepPreserves(ask, synthesis, digest, groups, Files(ask, synthesis, digest, groups, pairs[..|pairs| - 1]),
                        last.0, last.1);
    }
  }

  /**
   * In the notes behind the report, every drafted entry names a file that has
   * chunks and carries kept works, every error names a part inside that
   * file's range, and "no content" is reported exactly for names without chunks.
   */
  lemma ReportNotesFit(ask: Request -> Reply, synthesis: string, digest: string, entries: seq<Entry>,
                       pairs: seq<(string, string)>)
    ensures var notes := Files(ask, synthesis, digest, GroupSpec(entries), pairs).notes;
            forall i :: 0 <= i < |notes| ==> NoteFits(notes[i], GroupSpec(entries))
  {
    FilesPreserve(ask, synthesis, digest, GroupSpec(entries), pairs);
  }

  /** A missing API key, or a batch where no file yields a chunk, ends the run with its error and asks nothing more. */
  lemma EarlyExits(provider: string, env: map<string, string>, paths: seq<string>, infos: seq<string>,
                   synthesis: string, isFile: string -> bool, extract: string -> string, ask: Request -> Reply)
    ensures !HasApiKey(env, provider) ==>
              WorkResult(provider, env, paths, infos, synthesis, isFile, extract, ask) == KeyError(provider)
    ensures HasApiKey(env, provider) && FileNames(ProcessAll(paths, isFile, extract)) == {} ==>
              WorkResult(provider, env, paths, infos, synthesis, isFile, extract, ask) == NothingProcessedError
  {
    ProcessedMessagesNonEmpty(paths, isFile, extract);
    NothingProcessedMeansNoChunk(ProcessAll(paths, isFile, extract));
  }
}
