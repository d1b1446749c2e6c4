/**
 * The guess-strategy tool. For each input file it asks the model for an
 * initial relevance guess; then, starting at part 1, it shows the model one
 * chunk at a time together with the running guess and the parts already
 * seen, and reads back a verdict, a new guess and the next part to visit.
 * A part judged relevant ("oui") is selected for drafting. The walk stops
 * when the pointer is not an integer in `[1, total]` or names a part that
 * was already visited, or when a call raises.
 */
module Strategy {
  import opened Wrappers
  import opened Text
  import opened Chunker
  import opened Llm
  import opened Navigation

  /** The calls this tool makes, with the fields each prompt embeds. */
  datatype Request =
    | Digest(projectSynthesis: string)
    | InitialGuess(projectSynthesis: string, fileName: string, fileInfo: string)
    | Evaluate(digest: string, fileName: string, total: nat, fileInfo: string, guess: string,
               visited: seq<nat>, partId: nat, chunkText: string)

  const DigestFallback: string :=
    "Projet axé sur des objectifs stratégiques et techniques, nécessitant une analyse ciblée."

  /** A `(file_name, part_id)` pair of `chunks_to_draft`. */
  type Selection = (string, nat)

  // ---------------------------------------------------------------------
  // The reply
  // ---------------------------------------------------------------------

  /** What the walk does with a reply. */
  datatype Decision = Decision(relevant: bool, guess: string, next: Pointer)

  /**
   * The parse of a (stripped) reply: the loop starts from verdict "non" and
   * the current guess; the part is relevant when the lower-cased verdict is
   * "oui", and a missing pointer means "fin".
   */
  function Decide(result: string, guess: string): Decision {
    var e := ScanSpec(result, Verdict, Evaluation("non", guess, None));
    Decision(Lower(e.labelled) == "oui", e.guess, PointerOrFin(e.next))
  }

  /** The parsing loop of lines 195-220. */
  method ParseEvaluation(result: string, guess: string) returns (d: Decision)
    ensures d == Decide(result, guess)
  {
    var e := Scan(result, Verdict, Evaluation("non", guess, None));
    d := Decision(Lower(e.labelled) == "oui", e.guess, PointerOrFin(e.next));
  }

  /** The walk's guard on the decided pointer is the source's guard, for every file length. */
  lemma DecidedPointerGuard(result: string, guess: string, total: nat)
    ensures SourceGuard(Decide(result, guess).next, total) <==> InRange(Decide(result, guess).next, total)
  {
    ScannedPointerGuard(result, Verdict, guess, "non", total);
  }

  // ---------------------------------------------------------------------
  // The walk over one file
  // ---------------------------------------------------------------------

  /** Where a walk ends: the visited list, the last guess and the selection list. */
  datatype Walk = Walk(visited: seq<nat>, guess: string, selected: seq<Selection>)

  /**
   * The `while` loop of lines 149-231, from pointer `p` on; `decide` is the
   * reply parser (the tool uses `Decide`; the walk's own properties hold for any).
   */
  function WalkFrom(ctx: FileCtx, ask: Request -> Reply, decide: (string, string) -> Decision, p: Pointer,
                    visited: seq<nat>, guess: string, selected: seq<Selection>): Walk
    decreases Unvisited(|ctx.chunks|, visited)
  {
    var total := |ctx.chunks|;
    if !InRange(p, total) || p.n in visited then Walk(visited, guess, selected)
    else
      var visited' := visited + [p.n];
      UnvisitedShrinks(total, visited, p.n);
      var request := Evaluate(ctx.digest, ctx.name, total, ctx.info, guess, visited', ctx.chunks[p.n - 1].partId, ChunkShown(ctx.chunks[p.n - 1]));
      match ask(request)
      case Raised(_) => Walk(visited', guess, selected)
      case Answer(t) =>
        var d := decide(Strip(t), guess);
        var selected' := if d.relevant then selected + [(ctx.name, p.n)] else selected;
        WalkFrom(ctx, ask, decide, d.next, visited', d.guess, selected')
  }

  // ---------------------------------------------------------------------
  // The whole run
  // ---------------------------------------------------------------------

  /** `processed_chunks` and `chunks_to_draft` after some of the files. */
  datatype Run = Run(processed: map<string, seq<nat>>, selected: seq<Selection>)

  /** One iteration of the loop over files. */
  function FileStep(ask: Request -> Reply, synthesis: string, digest: string, groups: map<string, seq<Chunk>>,
                    st: Run, path: string, info: string): Run
  {
    var name := Basename(path);
    if name !in groups then st
    else
      var processed := if name in st.processed then st.processed else st.processed[name := []];
      match ask(InitialGuess(synthesis, name, info))
      case Raised(_) => Run(processed, st.selected)
      case Answer(t) =>
        var w := WalkFrom(FileCtx(name, info, digest, groups[name]), ask, Decide, Start, processed[name], Strip(t), st.selected);
        Run(processed[name := w.visited], w.selected)
  }

  function Files(ask: Request -> Reply, synthesis: string, digest: string, groups: map<string, seq<Chunk>>,
                 pairs: seq<(string, string)>): Run
    decreases |pairs|
  {
    if |pairs| == 0 then Run(map[], [])
    else
      var last := pairs[|pairs| - 1];
      FileStep(ask, synthesis, digest, groups, Files(ask, synthesis, digest, groups, pairs[..|pairs| - 1]), last.0, last.1)
  }

  /** `GuessStrategyTool._run`: the selected `(file, part)` pairs. */
  function StrategyResult(provider: string, env: map<string, string>, paths: seq<string>, infos: seq<string>,
                          synthesis: string, isFile: string -> bool, extract: string -> string,
                          ask: Request -> Reply): seq<Selection>
  {
    if !HasApiKey(env, provider) then []
    else
      var digest := TextOr(ask(Digest(synthesis)), DigestFallback);
      var entries := ProcessAll(paths, isFile, extract);
      if NothingProcessed(entries) then []
      else Files(ask, synthesis, digest, GroupSpec(entries), Zip(paths, infos)).selected
  }

  /** The `while` loop over the parts of one file. */
  method WalkFile(ctx: FileCtx, ask: Request -> Reply, visited0: seq<nat>, guess0: string,
                  selected0: seq<Selection>) returns (w: Walk)
    ensures w == WalkFrom(ctx, ask, Decide, Start, visited0, guess0, selected0)
  {
    var total := |ctx.chunks|;
    var visited, guess, selected := visited0, guess0, selected0;
    var p := Start;
    while InRange(p, total)
      invariant WalkFrom(ctx, ask, Decide, p, visited, guess, selected) ==
                WalkFrom(ctx, ask, Decide, Start, visited0, guess0, selected0)
      decreases Unvisited(total, visited)
    {
      if p.n in visited {
        break;
      }
      var part := p.n;
      UnvisitedShrinks(total, visited, part);
      visited := visited + [part];
      var r := ask(Evaluate(ctx.digest, ctx.name, total, ctx.info, guess, visited, ctx.chunks[part - 1].partId, ChunkShown(ctx.chunks[part - 1])));
      if r.Raised? {
        p := Word(Fin);
      } else {
        var d := ParseEvaluation(Strip(r.text), guess);
        if d.relevant {
          selected := selected + [(ctx.name, part)];
        }
        guess := d.guess;
        p := d.next;
      }
    }
    w := Walk(visited, guess, selected);
  }

  /** The loop over files. */
  method SelectFiles(ask: Request -> Reply, synthesis: string, digest: string, groups: map<string, seq<Chunk>>,
                     pairs: seq<(string, string)>) returns (selected: seq<Selection>)
    ensures selected == Files(ask, synthesis, digest, groups, pairs).selected
  {
    var processed: map<string, seq<nat>> := map[];
    selected := [];
    var i := 0;
    while i < |pairs|
      invariant 0 <= i <= |pairs|
      invariant Run(processed, selected) == Files(ask, synthesis, digest, groups, pairs[..i])
    {
      assert pairs[..i + 1][..i] == pairs[..i];
      var path := pairs[i].0;
      var info := pairs[i].1;
      var name := Basename(path);
      if name in groups {
        if name !in processed {
          processed := processed[name := []];
        }
        var reply := ask(InitialGuess(synthesis, name, info));
        if reply.Answer? {
          var w := WalkFile(FileCtx(name, info, digest, groups[name]), ask, processed[name], Strip(reply.text), selected);
          selected := w.selected;
          processed := processed[name := w.visited];
        }
      }
      i := i + 1;
    }
    assert pairs[..|pairs|] == pairs;
  }

  /** The tool itself, with its loops; it computes exactly `StrategyResult`. */
  method RunStrategy(provider: string, env: map<string, string>, paths: seq<string>, infos: seq<string>,
                     synthesis: string, isFile: string -> bool, extract: string -> string,
                     ask: Request -> Reply) returns (selected: seq<Selection>)
    ensures selected == StrategyResult(provider, env, paths, infos, synthesis, isFile, extract, ask)
  {
    if !HasApiKey(env, provider) {
      return [];
    }
    var digest := TextOr(ask(Digest(synthesis)), DigestFallback);
    var entries := ProcessFiles(paths, isFile, extract);
    if NothingProcessed(entries) {
      return [];
    }
    var groups := GroupByFile(entries);
    assert groups == GroupSpec(entries);
    selected := SelectFiles(ask, synthesis, digest, groups, Zip(paths, infos));
  }

  // ---------------------------------------------------------------------
  // Properties of the walk and the run
  // ---------------------------------------------------------------------

  /** Every selection naming `name` is a part already visited. */
  predicate SelectionsVisited(selected: seq<Selection>, name: string, visited: seq<nat>) {
    forall i :: 0 <= i < |selected| && selected[i].0 == name ==> selected[i].1 in visited
  }

  /** One step keeps the invariants: the new part is fresh and any pair it selects is new. */
  lemma StepPreserves(name: string, total: nat, part: nat, visited: seq<nat>, selected: seq<Selection>, relevant: bool)
    requires ValidVisited(visited, total) && 1 <= part <= total && part !in visited
    requires Distinct(selected) && SelectionsVisited(selected, name, visited)
    ensures ValidVisited(visited + [part], total)
    ensures var selected' := if relevant then selected + [(name, part)] else selected;
            Distinct(selected') && SelectionsVisited(selected', name, visited + [part])
  {
    var visited' := visited + [part];
    forall i | 0 <= i < |selected| && selected[i].0 == name ensures selected[i].1 in visited' {
      assert selected[i].1 in visited;
    }
    if relevant {
      forall i | 0 <= i < |selected| ensures selected[i] != (name, part) {
        if selected[i].0 == name {
          assert selected[i].1 in visited;
        }
      }
    }
  }

  /** A walk only appends, to the visited list and to the selection list, and only pairs of its own file. */
  lemma {:induction false} WalkExtends(ctx: FileCtx, ask: Request -> Reply, decide: (string, string) -> Decision,
                                       p: Pointer, visited: seq<nat>, guess: string, selected: seq<Selection>)
    ensures var w := WalkFrom(ctx, ask, decide, p, visited, guess, selected);
            && visited <= w.visited
            && selected <= w.selected
            && (forall i :: |selected| <= i < |w.selected| ==> w.selected[i].0 == ctx.name)
    decreases Unvisited(|ctx.chunks|, visited)
  {
    var total := |ctx.chunks|;
    if InRange(p, total) && p.n !in visited {
      var visited' := visited + [p.n];
      UnvisitedShrinks(total, visited, p.n);
      var request := Evaluate(ctx.digest, ctx.name, total, ctx.info, guess, visited', ctx.chunks[p.n - 1].partId, ChunkShown(ctx.chunks[p.n - 1]));
      match ask(request)
      case Raised(_) =>
      case Answer(t) =>
        var d := decide(Strip(t), guess);
        var selected' := if d.relevant then selected + [(ctx.name, p.n)] else selected;
        WalkExtends(ctx, ask, decide, d.next, visited', d.guess, selected');
    }
  }

  /**
   * A walk keeps the visited list distinct and inside `[1, total]`, and the
   * selection list distinct with every pair of this file among the visited
   * parts: it never selects a pair twice.
   */
  lemma {:induction false} WalkPreserves(ctx: FileCtx, ask: Request -> Reply, decide: (string, string) -> Decision,
                                         p: Pointer, visited: seq<nat>, guess: string, selected: seq<Selection>)
    requires ValidVisited(visited, |ctx.chunks|)
    requires Distinct(selected)
    requires SelectionsVisited(selected, ctx.name, visited)
    ensures var w := WalkFrom(ctx, ask, decide, p, visited, guess, selected);
            && ValidVisited(w.visited, |ctx.chunks|)
            && Distinct(w.selected)
            && SelectionsVisited(w.selected, ctx.name, w.visited)
    decreases Unvisited(|ctx.chunks|, visited)
  {
    var total := |ctx.chunks|;
    if InRange(p, total) && p.n !in visited {
      var visited' := visited + [p.n];
      UnvisitedShrinks(total, visited, p.n);
      var request := Evaluate(ctx.digest, ctx.name, total, ctx.info, guess, visited', ctx.chunks[p.n - 1].partId, ChunkShown(ctx.chunks[p.n - 1]));
      match ask(request)
      case Raised(_) =>
        StepPreserves(ctx.name, total, p.n, visited, selected, false);
      case Answer(t) =>
        var d := decide(Strip(t), guess);
        var selected' := if d.relevant then selected + [(ctx.name, p.n)] else selected;
        StepPreserves(ctx.name, total, p.n, visited, selected, d.relevant);
        WalkPreserves(ctx, ask, decide, d.next, visited', d.guess, selected');
    }
  }

  /** Everything a run has built so far satisfies the walk's invariants, file by file. */
  predicate RunInvariant(run: Run, groups: map<string, seq<Chunk>>) {
    && (forall name :: name in run.processed ==> name in groups && ValidVisited(run.processed[name], |groups[name]|))
    && Distinct(run.selected)
    && (forall i :: 0 <= i < |run.selected| ==>
          run.selected[i].0 in run.processed && run.selected[i].1 in run.processed[run.selected[i].0])
  }

  lemma FileStepPreserves(ask: Request -> Reply, synthesis: string, digest: string, groups: map<string, seq<Chunk>>,
                          st: Run, path: string, info: string)
    requires RunInvariant(st, groups)
    ensures RunInvariant(FileStep(ask, synthesis, digest, groups, st, path, info), groups)
  {
    var name := Basename(path);
    if name in groups {
      var processed := if name in st.processed then st.processed else st.processed[name := []];
      match ask(InitialGuess(synthesis, name, info))
      case Raised(_) =>
      case Answer(t) =>
        var ctx := FileCtx(name, info, digest, groups[name]);
        assert SelectionsVisited(st.selected, name, processed[name]) by {
          forall i | 0 <= i < |st.selected| && st.selected[i].0 == name ensures st.selected[i].1 in processed[name] {
          }
        }
        WalkPreserves(ctx, ask, Decide, Start, processed[name], Strip(t), st.selected);
        WalkExtends(ctx, ask, Decide, Start, processed[name], Strip(t), st.selected);
        var w := WalkFrom(ctx, ask, Decide, Start, processed[name], Strip(t), st.selected);
        var processed' := processed[name := w.visited];
        forall i | 0 <= i < |w.selected|
          ensures w.selected[i].0 in processed' && w.selected[i].1 in processed'[w.selected[i].0]
        {
          if i < |st.selected| {
            assert w.selected[i] == st.selected[i];
            var other := st.selected[i].0;
            if other != name {
              assert processed'[other] == st.processed[other];
            } else {
              assert w.selected[i].1 in w.visited;
            }
          }
        }
    }
  }

  lemma {:induction false} FilesPreserve(ask: Request -> Reply, synthesis: string, digest: string,
                                         groups: map<string, seq<Chunk>>, pairs: seq<(string, string)>)
    ensures RunInvariant(Files(ask, synthesis, digest, groups, pairs), groups)
    decreases |pairs|
  {
    if |pairs| > 0 {
      FilesPreserve(ask, synthesis, digest, groups, pairs[..|pairs| - 1]);
      var last := pairs[|pairs| - 1];
      FileStepPreserves(ask, synthesis, digest, groups, Files(ask, synthesis, digest, groups, pairs[..|pairs| - 1]), last.0, last.1);
    }
  }

  /**
   * The selection list holds no pair twice, and every pair names a file that
   * has chunks and a part id inside that file's `[1, total]`.
   */
  lemma SelectionsDistinctAndInRange(provider: string, env: map<string, string>, paths: seq<string>, infos: seq<string>,
                                     synthesis: string, isFile: string -> bool, extract: string -> string,
                                     ask: Request -> Reply)
    ensures var sel := StrategyResult(provider, env, paths, infos, synthesis, isFile, extract, ask);
            var groups := GroupSpec(ProcessAll(paths, isFile, extract));
            && Distinct(sel)
            && forall i :: 0 <= i < |sel| ==> sel[i].0 in groups && 1 <= sel[i].1 <= |groups[sel[i].0]|
  {
    if HasApiKey(env, provider) {
      var digest := TextOr(ask(Digest(synthesis)), DigestFallback);
      var entries := ProcessAll(paths, isFile, extract);
      if !NothingProcessed(entries) {
        var groups := GroupSpec(entries);
        FilesPreserve(ask, synthesis, digest, groups, Zip(paths, infos));
        var run := Files(ask, synthesis, digest, groups, Zip(paths, infos));
        forall i | 0 <= i < |run.selected| ensures 1 <= run.selected[i].1 <= |groups[run.selected[i].0]| {
          var vs := run.processed[run.selected[i].0];
          var k :| 0 <= k < |vs| && vs[k] == run.selected[i].1;
        }
      }
    }
  }

  /** A missing API key, or a batch where no file yields a chunk, selects nothing, whatever the model answers. */
  lemma EarlyExits(provider: string, env: map<string, string>, paths: seq<string>, infos: seq<string>,
                   synthesis: string, isFile: string -> bool, extract: string -> string,
                   ask: Request -> Reply, other: Request -> Reply)
    requires !HasApiKey(env, provider) || FileNames(ProcessAll(paths, isFile, extract)) == {}
    ensures StrategyResult(provider, env, paths, infos, synthesis, isFile, extract, ask) == []
    ensures StrategyResult(provider, env, paths, infos, synthesis, isFile, extract, other) == []
  {
    ProcessedMessagesNonEmpty(paths, isFile, extract);
    NothingProcessedMeansNoChunk(ProcessAll(paths, isFile, extract));
  }

  /** A failed initial guess skips the file: no part is visited and nothing is selected. */
  lemma FailedInitialGuessSkipsFile(ask: Request -> Reply, synthesis: string, digest: string,
                                    groups: map<string, seq<Chunk>>, st: Run, path: string, info: string)
    requires ask(InitialGuess(synthesis, Basename(path), info)).Raised?
    ensures var r := FileStep(ask, synthesis, digest, groups, st, path, info);
            r.selected == st.selected &&
            forall name :: name in st.processed ==> name in r.processed && r.processed[name] == st.processed[name]
  {
  }

  /** A step that raises ends the walk of that file but keeps the pairs already selected. */
  lemma RaisedStepStops(ctx: FileCtx, ask: Request -> Reply, decide: (string, string) -> Decision,
                        p: Pointer, visited: seq<nat>, guess: string, selected: seq<Selection>)
    requires InRange(p, |ctx.chunks|) && p.n !in visited
    requires ask(Evaluate(ctx.digest, ctx.name, |ctx.chunks|, ctx.info, guess, visited + [p.n],
                          ctx.chunks[p.n - 1].partId, ChunkShown(ctx.chunks[p.n - 1]))).Raised?
    ensures WalkFrom(ctx, ask, decide, p, visited, guess, selected) == Walk(visited + [p.n], guess, selected)
  {
  }

  // ---------------------------------------------------------------------
  // Counting: a walk makes at most `total` calls
  // ---------------------------------------------------------------------

  /**
   * Every step call appends exactly one part to the visited list, so a walk
   * makes at most `total` calls, fewer when the file was visited before.
   */
  lemma WalkCallBound(ctx: FileCtx, ask: Request -> Reply, decide: (string, string) -> Decision,
                      visited: seq<nat>, guess: string, selected: seq<Selection>)
    requires ValidVisited(visited, |ctx.chunks|)
    requires Distinct(selected)
    requires SelectionsVisited(selected, ctx.name, visited)
    ensures var w := WalkFrom(ctx, ask, decide, Start, visited, guess, selected);
            |visited| <= |w.visited| <= |ctx.chunks|
  {
    WalkPreserves(ctx, ask, decide, Start, visited, guess, selected);
    WalkExtends(ctx, ask, decide, Start, visited, guess, selected);
    VisitedBound(WalkFrom(ctx, ask, decide, Start, visited, guess, selected).visited, |ctx.chunks|);
  }

  // ---------------------------------------------------------------------
  // The selection file
  // ---------------------------------------------------------------------

  /** `f"{file_name},{part_id}"` */
  function SelectionLine(s: Selection): string {
    s.0 + "," + NatToString(s.1)
  }

  /** One line `name,part` per selected pair, in selection order, each ended by "\n". */
  function SelectionText(selected: seq<Selection>): string
    decreases |selected|
  {
    if |selected| == 0 then "" else SelectionLine(selected[0]) + "\n" + SelectionText(selected[1..])
  }

  /** `chunks_to_draft.txt` is written only when something was selected. */
  function SelectionFile(selected: seq<Selection>): Option<string> {
    if |selected| == 0 then None else Some(SelectionText(selected))
  }

  /** The written file reads back, line by line, as the selected pairs in order (and a final empty line). */
  lemma {:induction false} SelectionFileLines(selected: seq<Selection>)
    requires forall i :: 0 <= i < |selected| ==> '\n' !in selected[i].0
    ensures Split(SelectionText(selected), '\n') == seq(|selected|, i requires 0 <= i < |selected| => SelectionLine(selected[i])) + [""]
    decreases |selected|
  {
    if |selected| == 0 {
    } else {
      SelectionFileLines(selected[1..]);
      var line := SelectionLine(selected[0]);
      NatToStringPlain(selected[0].1);
      assert '\n' !in line;
      SplitFirst(line, '\n', SelectionText(selected[1..]));
      assert SelectionText(selected) == line + ['\n'] + SelectionText(selected[1..]);
    }
  }
}
