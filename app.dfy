/**
 * The text handling of the web front end: reading back the `name,part`
 * list the strategy tool writes, the comma-separated part-id fields and
 * their default values, the "draft every chunk" choice, the section
 * selector and the checks made before the section tool is called.
 */
module App {
  import opened Wrappers
  import opened Text
  import opened Chunker
  import opened Strategy
  import opened Sections

  // ---------------------------------------------------------------------
  // The suggested chunks, by file
  // ---------------------------------------------------------------------

  /** `suggested_chunks`: each file name, in order of first appearance, with its ids in line order. */
  type Suggestions = seq<(string, seq<int>)>

  /** `suggested_chunks.get(name, [])` */
  function IdsFor(g: Suggestions, name: string): seq<int>
    decreases |g|
  {
    if |g| == 0 then [] else if g[0].0 == name then g[0].1 else IdsFor(g[1..], name)
  }

  /** The file names of the suggestions, in order. */
  function Names(g: Suggestions): seq<string>
    decreases |g|
  {
    if |g| == 0 then [] else [g[0].0] + Names(g[1..])
  }

  predicate DistinctNames(g: Suggestions)
    decreases |g|
  {
    |g| == 0 || (g[0].0 !in Names(g[1..]) && DistinctNames(g[1..]))
  }

  /** `suggested_chunks.setdefault(name, []).append(id)`, a new name going last. */
  function Add(g: Suggestions, name: string, id: int): Suggestions
    decreases |g|
  {
    if |g| == 0 then [(name, [id])]
    else if g[0].0 == name then [(name, g[0].1 + [id])] + g[1..]
    else [g[0]] + Add(g[1..], name, id)
  }

  /** Adding records the id under its name only, and adds the name at the end when it is new. */
  lemma {:induction false} AddRecords(g: Suggestions, name: string, id: int)
    ensures forall m :: IdsFor(Add(g, name, id), m) == IdsFor(g, m) + (if m == name then [id] else [])
    ensures Names(Add(g, name, id)) == if name in Names(g) then Names(g) else Names(g) + [name]
    decreases |g|
  {
    var r := Add(g, name, id);
    if |g| == 0 {
      assert r[1..] == [];
    } else if g[0].0 == name {
      assert r[1..] == g[1..];
    } else {
      AddRecords(g[1..], name, id);
      assert r[0] == g[0] && r[1..] == Add(g[1..], name, id);
    }
  }

  lemma {:induction false} AddKeepsDistinct(g: Suggestions, name: string, id: int)
    requires DistinctNames(g)
    ensures DistinctNames(Add(g, name, id))
    decreases |g|
  {
    var r := Add(g, name, id);
    if |g| == 0 {
      assert r[1..] == [];
    } else if g[0].0 == name {
      assert r[1..] == g[1..];
    } else {
      AddKeepsDistinct(g[1..], name, id);
      AddRecords(g[1..], name, id);
      assert r[0] == g[0] && r[1..] == Add(g[1..], name, id);
    }
  }

  /** The reference grouping: every pair added in order. */
  function Grouped(pairs: seq<Selection>): Suggestions
    decreases |pairs|
  {
    if |pairs| == 0 then []
    else Add(Grouped(pairs[..|pairs| - 1]), pairs[|pairs| - 1].0, pairs[|pairs| - 1].1)
  }

  /** The ids paired with `name`, in order. */
  function IdsOf(pairs: seq<Selection>, name: string): seq<nat>
    decreases |pairs|
  {
    if |pairs| == 0 then []
    else IdsOf(pairs[..|pairs| - 1], name) + (if pairs[|pairs| - 1].0 == name then [pairs[|pairs| - 1].1] else [])
  }

  /** Grouping keeps one entry per name, the names of the pairs, holding exactly that name's ids in order. */
  lemma {:induction false} GroupedByName(pairs: seq<Selection>)
    ensures DistinctNames(Grouped(pairs))
    ensures forall m :: m in Names(Grouped(pairs)) <==> exists k :: 0 <= k < |pairs| && pairs[k].0 == m
    ensures forall m :: IdsFor(Grouped(pairs), m) == IdsOf(pairs, m)
    decreases |pairs|
  {
    if |pairs| > 0 {
      var front := pairs[..|pairs| - 1];
      var last := pairs[|pairs| - 1];
      GroupedByName(front);
      AddRecords(Grouped(front), last.0, last.1);
      AddKeepsDistinct(Grouped(front), last.0, last.1);
      forall m ensures m in Names(Grouped(pairs)) <==> exists k :: 0 <= k < |pairs| && pairs[k].0 == m {
        if m in Names(Grouped(front)) {
          var k :| 0 <= k < |front| && front[k].0 == m;
          assert pairs[k].0 == m;
        }
        if exists k :: 0 <= k < |pairs| && pairs[k].0 == m {
          var k :| 0 <= k < |pairs| && pairs[k].0 == m;
          if k < |front| {
            assert front[k].0 == m;
          }
        }
      }
    }
  }

  // ---------------------------------------------------------------------
  // Reading `chunks_to_draft.txt`
  // ---------------------------------------------------------------------

  /**
   * One line of the loop at lines 178-184: a blank line is skipped; any
   * other line must split on "," into exactly a name and an integer, or
   * reading fails (the unpacking or `int()` raises) with that line.
   */
  function ReadLine(g: Suggestions, raw: string): Result<Suggestions> {
    var line := Strip(raw);
    if line == "" then Ok(g)
    else
      var parts := Split(line, ',');
      if |parts| != 2 then Err(line)
      else match ParseInt(parts[1])
        case None => Err(line)
        case Some(id) => Ok(Add(g, parts[0], id))
  }

  /** The lines read in order; the first bad line ends the reading. */
  function ReadLines(lines: seq<string>): Result<Suggestions>
    decreases |lines|
  {
    if |lines| == 0 then Ok([])
    else match ReadLines(lines[..|lines| - 1])
      case Err(e) => Err(e)
      case Ok(g) => ReadLine(g, lines[|lines| - 1])
  }

  function ReadSuggestions(content: string): Result<Suggestions> {
    ReadLines(Split(content, '\n'))
  }

  /** The reading loop itself. */
  method ReadChunkList(content: string) returns (r: Result<Suggestions>)
    ensures r == ReadSuggestions(content)
  {
    var lines := Split(content, '\n');
    var g: Suggestions := [];
    for i := 0 to |lines|
      invariant ReadLines(lines[..i]) == Ok(g)
    {
      assert lines[..i + 1][..i] == lines[..i];
      var line := Strip(lines[i]);
      if line != "" {
        var parts := Split(line, ',');
        if |parts| != 2 {
          assert lines[..i + 1] == lines[..i] + [lines[i]];
          ReadErrorSticks(lines[..i + 1], lines[i + 1..]);
          assert lines[..i + 1] + lines[i + 1..] == lines;
          return Err(line);
        }
        var id := ParseInt(parts[1]);
        if id.None? {
          ReadErrorSticks(lines[..i + 1], lines[i + 1..]);
          assert lines[..i + 1] + lines[i + 1..] == lines;
          return Err(line);
        }
        g := Add(g, parts[0], id.value);
      }
    }
    assert lines[..|lines|] == lines;
    r := Ok(g);
  }

  /** Once a line fails, nothing after it is read. */
  lemma {:induction false} ReadErrorSticks(lines: seq<string>, more: seq<string>)
    requires ReadLines(lines).Err?
    ensures ReadLines(lines + more) == ReadLines(lines)
    decreases |more|
  {
    if |more| > 0 {
      ReadErrorSticks(lines, more[..|more| - 1]);
      assert (lines + more)[..|lines + more| - 1] == lines + more[..|more| - 1];
    } else {
      assert lines + more == lines;
    }
  }

  /**
   * A non-blank line is refused exactly when it does not hold one comma or
   * its second field is not an integer; otherwise its id is added under its
   * first field.
   */
  lemma ReadLineCases(g: Suggestions, raw: string)
    ensures var line := Strip(raw);
            line != "" ==>
              (ReadLine(g, raw).Err? <==>
                 |Split(line, ',')| != 2 || ParseInt(Split(line, ',')[1]).None?)
    ensures |Split(Strip(raw), ',')| == 2 <==> multiset(Strip(raw))[','] == 1
    ensures Strip(raw) == "" ==> ReadLine(g, raw) == Ok(g)
    ensures ReadLine(g, raw).Err? ==> ReadLine(g, raw).error == Strip(raw)
  {
    SplitCount(Strip(raw), ',');
  }

  /** A name the written file can carry and the reader gives back unchanged. */
  predicate WritableName(name: string) {
    ',' !in name && '\n' !in name && (name == "" || !IsSpace(name[0]))
  }

  /** The reader takes a written line back as its pair. */
  lemma ReadLineOfSelection(g: Suggestions, s: Selection)
    requires WritableName(s.0)
    ensures ReadLine(g, SelectionLine(s)) == Ok(Add(g, s.0, s.1))
  {
    var digits := NatToString(s.1);
    var line := SelectionLine(s);
    NatToStringPlain(s.1);
    assert line == s.0 + [','] + digits;
    assert !IsSpace(line[0]) by {
      if s.0 == "" {
        assert line[0] == ',';
      } else {
        assert line[0] == s.0[0];
      }
    }
    assert line[|line| - 1] == digits[|digits| - 1];
    StripNoEdgeSpace(line);
    assert Join([','], [s.0, digits]) == line;
    SplitJoin([s.0, digits], ',');
    ParseIntDigits(digits);
    DigitsValueOfNatToString(s.1);
  }

  lemma {:induction false} ReadWrittenLines(sel: seq<Selection>, lines: seq<string>)
    requires forall i :: 0 <= i < |sel| ==> WritableName(sel[i].0)
    requires |lines| == |sel| && forall i :: 0 <= i < |sel| ==> lines[i] == SelectionLine(sel[i])
    ensures ReadLines(lines) == Ok(Grouped(sel))
    decreases |sel|
  {
    if |sel| > 0 {
      var front := sel[..|sel| - 1];
      var last := sel[|sel| - 1];
      ReadWrittenLines(front, lines[..|lines| - 1]);
      ReadLineOfSelection(Grouped(front), last);
    }
  }

  /**
   * Round trip: the selection file written by the strategy tool reads back as
   * the selected pairs grouped by name, names in order of first appearance
   * and ids in selection order, provided no name holds a comma or a line
   * break or starts with whitespace.
   */
  lemma SelectionRoundTrip(sel: seq<Selection>)
    requires forall i :: 0 <= i < |sel| ==> WritableName(sel[i].0)
    ensures ReadSuggestions(SelectionText(sel)) == Ok(Grouped(sel))
  {
    SelectionFileLines(sel);
    var lines := seq(|sel|, i requires 0 <= i < |sel| => SelectionLine(sel[i]));
    ReadWrittenLines(sel, lines);
    assert (lines + [""])[..|lines|] == lines;
  }

  // ---------------------------------------------------------------------
  // The part-id fields
  // ---------------------------------------------------------------------

  /** The tokens that are all digits once stripped, read as numbers, in order. */
  function DigitTokens(tokens: seq<string>): seq<nat>
    decreases |tokens|
  {
    if |tokens| == 0 then []
    else
      var t := Strip(tokens[0]);
      (if IsDigits(t) then [DigitsValue(t)] else []) + DigitTokens(tokens[1..])
  }

  /**
   * Each token that is all digits once stripped gives its number, and
   * nothing else gives one.
   */
  lemma {:induction false} DigitTokensFrom(tokens: seq<string>)
    ensures |DigitTokens(tokens)| <= |tokens|
    ensures forall x :: x in DigitTokens(tokens) ==>
              exists t :: t in tokens && IsDigits(Strip(t)) && DigitsValue(Strip(t)) == x
    ensures forall t :: t in tokens && IsDigits(Strip(t)) ==> DigitsValue(Strip(t)) in DigitTokens(tokens)
    decreases |tokens|
  {
    if |tokens| > 0 {
      DigitTokensFrom(tokens[1..]);
      assert forall t :: t in tokens <==> t == tokens[0] || t in tokens[1..];
    }
  }

  /** `[int(p.strip()) for p in text.split(",") if p.strip().isdigit()]` */
  function ParsePartIds(text: string): (r: seq<nat>)
    ensures |r| <= |Split(text, ',')|
    ensures forall x :: x in r ==> exists t :: t in Split(text, ',') && IsDigits(Strip(t)) && DigitsValue(Strip(t)) == x
    ensures forall t :: t in Split(text, ',') && IsDigits(Strip(t)) ==> DigitsValue(Strip(t)) in r
  {
    DigitTokensFrom(Split(text, ','));
    DigitTokens(Split(text, ','))
  }

  /** The parser reads the tokens one by one: the ids of a list of tokens are those of its parts, in order. */
  lemma {:induction false} DigitTokensAppend(a: seq<string>, b: seq<string>)
    ensures DigitTokens(a + b) == DigitTokens(a) + DigitTokens(b)
    ensures DigitTokens([]) == []
    decreases |a|
  {
    if |a| == 0 {
      assert a + b == b;
    } else {
      DigitTokensAppend(a[1..], b);
      var t := Strip(a[0]);
      var head := if IsDigits(t) then [DigitsValue(t)] else [];
      assert (a + b)[0] == a[0];
      assert (a + b)[1..] == a[1..] + b;
      assert DigitTokens(a + b) == head + DigitTokens(a[1..] + b);
      assert DigitTokens(a) == head + DigitTokens(a[1..]);
    }
  }

  /** One token gives its number exactly when it is all digits once stripped, and nothing otherwise. */
  lemma DigitTokenSingle(t: string)
    ensures DigitTokens([t]) == if IsDigits(Strip(t)) then [DigitsValue(Strip(t))] else []
  {
    assert [t][1..] == [];
  }

  /** `", ".join(str(p) for p in ids)` */
  function IdsText(ids: seq<int>): string {
    Join(", ", seq(|ids|, i requires 0 <= i < |ids| => IntToString(ids[i])))
  }

  /** The default value of a file's field: its suggested ids, or empty for a file without suggestions. */
  function DefaultValue(g: Suggestions, name: string): string {
    if name in Names(g) then IdsText(IdsFor(g, name)) else ""
  }

  /** The non-negative ids of a list, in order. */
  function NonNegative(ids: seq<int>): seq<nat>
    decreases |ids|
  {
    if |ids| == 0 then [] else (if ids[0] >= 0 then [ids[0] as nat] else []) + NonNegative(ids[1..])
  }

  lemma StripLeadingBlank(t: string)
    ensures Strip(" " + t) == Strip(t)
  {
    assert (" " + t)[1..] == t;
  }

  /**
   * `str(i)`, alone or after the blank that `", "` leaves behind, is taken
   * back by the field parser exactly when `i` is not negative.
   */
  lemma IntTokenRead(i: int)
    ensures DigitTokens([IntToString(i)]) == if i >= 0 then [i as nat] else []
    ensures DigitTokens([" " + IntToString(i)]) == if i >= 0 then [i as nat] else []
  {
    var s := IntToString(i);
    if i >= 0 {
      NatToStringPlain(i);
      StripNoEdgeSpace(s);
      DigitsValueOfNatToString(i);
    } else {
      var d := NatToString(-i);
      NatToStringPlain(-i);
      assert s == "-" + d;
      assert !IsSpace(s[|s| - 1]) by { assert s[|s| - 1] == d[|d| - 1]; }
      StripNoEdgeSpace(s);
      assert !IsDigit(s[0]);
    }
    assert [IntToString(i)][1..] == [];
    assert [" " + IntToString(i)][1..] == [];
    StripLeadingBlank(s);
  }

  /** A blank after a comma does not change what the next token gives. */
  lemma BlankAfterComma(y: string)
    ensures DigitTokens(Split(" " + y, ',')) == DigitTokens(Split(y, ','))
  {
    var ys := Split(y, ',');
    assert (" " + y)[1..] == y;
    var zs := Split(" " + y, ',');
    assert zs == [" " + ys[0]] + ys[1..];
    StripLeadingBlank(ys[0]);
    assert zs[1..] == ys[1..];
  }

  /** The text `head + ", " + rest` gives the ids of `head`, then those of `rest`. */
  lemma FieldStep(head: string, y: string)
    requires ',' !in head
    ensures DigitTokens(Split(head + ", " + y, ',')) == DigitTokens([head]) + DigitTokens(Split(y, ','))
  {
    assert head + ", " + y == head + [','] + (" " + y);
    SplitFirst(head, ',', " " + y);
    BlankAfterComma(y);
    var zs := Split(" " + y, ',');
    assert ([head] + zs)[1..] == zs;
    assert [head][1..] == [];
  }

  /**
   * Round trip of the field default: parsing `", ".join(str(p) ...)` gives the
   * ids back, in order and with duplicates, except negative ones (whose text
   * is not all digits).
   */
  lemma {:induction false} DefaultValueParses(ids: seq<int>)
    ensures ParsePartIds(IdsText(ids)) == NonNegative(ids)
    decreases |ids|
  {
    if |ids| > 0 {
      var head := IntToString(ids[0]);
      NatToStringPlain(if ids[0] >= 0 then ids[0] else -ids[0]);
      assert ',' !in head;
      IntTokenRead(ids[0]);
      assert NonNegative(ids) == DigitTokens([head]) + NonNegative(ids[1..]);
      if |ids| == 1 {
        assert IdsText(ids) == head;
        SplitNoSeparator(head, ',');
        assert NonNegative(ids[1..]) == [];
      } else {
        var rest := ids[1..];
        DefaultValueParses(rest);
        var texts := seq(|ids|, i requires 0 <= i < |ids| => IntToString(ids[i]));
        assert texts[1..] == seq(|rest|, i requires 0 <= i < |rest| => IntToString(rest[i]));
        assert IdsText(ids) == head + ", " + IdsText(rest);
        FieldStep(head, IdsText(rest));
      }
    }
  }

  /** Suggested ids reach the field and come back from it: the non-negative ones, in order. */
  lemma SuggestedIdsSurviveTheField(g: Suggestions, name: string)
    ensures ParsePartIds(DefaultValue(g, name)) == NonNegative(IdsFor(g, name))
  {
    DefaultValueParses(IdsFor(g, name));
    if name !in Names(g) {
      assert IdsFor(g, name) == [] by {
        IdsForAbsent(g, name);
      }
      assert ParsePartIds("") == [];
    }
  }

  lemma {:induction false} IdsForAbsent(g: Suggestions, name: string)
    requires name !in Names(g)
    ensures IdsFor(g, name) == []
    ensures DefaultValue(g, name) == ""
    decreases |g|
  {
    if |g| > 0 {
      IdsForAbsent(g[1..], name);
    }
  }

  /**
   * End to end: the parts the strategy tool selected for a file become that
   * file's field default, which the field parser reads back as exactly
   * those parts, in selection order.
   */
  lemma SelectedPartsReachTheField(sel: seq<Selection>, name: string)
    requires forall i :: 0 <= i < |sel| ==> WritableName(sel[i].0)
    ensures ReadSuggestions(SelectionText(sel)).Ok?
    ensures ParsePartIds(DefaultValue(ReadSuggestions(SelectionText(sel)).value, name)) == IdsOf(sel, name)
  {
    SelectionRoundTrip(sel);
    GroupedByName(sel);
    SuggestedIdsSurviveTheField(Grouped(sel), name);
    NonNegativeOfNats(IdsOf(sel, name));
  }

  lemma {:induction false} NonNegativeOfNats(ids: seq<nat>)
    ensures NonNegative(ids) == ids
    decreases |ids|
  {
    if |ids| > 0 {
      NonNegativeOfNats(ids[1..]);
      assert [ids[0]] + ids[1..] == ids;
    }
  }

  // ---------------------------------------------------------------------
  // "Draft every chunk" for one file
  // ---------------------------------------------------------------------

  /** `[f for f in file_paths if os.path.basename(f) == name]` */
  function PathsNamed(paths: seq<string>, name: string): seq<string>
    decreases |paths|
  {
    if |paths| == 0 then []
    else PathsNamed(paths[..|paths| - 1], name) + (if Basename(paths[|paths| - 1]) == name then [paths[|paths| - 1]] else [])
  }

  /** The part ids of the chunks of `name` among the entries, in order. */
  function PieceIds(entries: seq<Entry>, name: string): seq<nat>
    decreases |entries|
  {
    if |entries| == 0 then []
    else
      var e := entries[|entries| - 1];
      PieceIds(entries[..|entries| - 1], name) + (if e.Piece? && e.chunk.source == name then [e.chunk.partId] else [])
  }

  predicate HasFailure(entries: seq<Entry>) {
    exists k :: 0 <= k < |entries| && entries[k].Failure?
  }

  /**
   * Lines 205-209 as written: the comprehension reads `chunk["source"]` of
   * every entry, so one error entry (a missing file or an empty extraction)
   * raises and ends the whole run.
   */
  function AllPartIdsAsWritten(name: string, paths: seq<string>, isFile: string -> bool,
                               extract: string -> string): Result<seq<nat>>
  {
    var entries := ProcessAll(PathsNamed(paths, name), isFile, extract);
    if |entries| == 0 then Ok([])
    else if HasFailure(entries) then Err("source")
    else Ok(PieceIds(entries, name))
  }

  /** The evidently intended reading: the ids of every chunk of the file, error entries skipped. */
  function AllPartIds(name: string, paths: seq<string>, isFile: string -> bool, extract: string -> string): seq<nat> {
    PieceIds(ProcessAll(PathsNamed(paths, name), isFile, extract), name)
  }

  /** A single path that is missing or has no text gives one error entry. */
  lemma FailedPathEntries(path: string, isFile: string -> bool, extract: string -> string)
    requires !isFile(path) || extract(path) == ""
    ensures var es := ProcessAll([path], isFile, extract); |es| == 1 && es[0].Failure?
  {
    assert [path][..0] == [];
    assert ProcessAll([], isFile, extract) == [];
    assert ProcessAll([path], isFile, extract) == FileEntries(path, isFile, extract);
  }

  /**
   * As written, a file of that name that is missing, or whose extracted text
   * is empty, fails the whole collection; the intended reading gives no id.
   */
  lemma MissingFileFailsCollection(name: string, path: string, isFile: string -> bool, extract: string -> string)
    requires Basename(path) == name && (!isFile(path) || extract(path) == "")
    ensures AllPartIdsAsWritten(name, [path], isFile, extract).Err?
    ensures AllPartIds(name, [path], isFile, extract) == []
  {
    assert PathsNamed([path], name) == [path] by {
      assert [path][..0] == [];
    }
    FailedPathEntries(path, isFile, extract);
    var entries := ProcessAll([path], isFile, extract);
    assert HasFailure(entries) by {
      assert entries[0].Failure?;
    }
    assert PieceIds(entries, name) == PieceIds(entries[..0], name);
  }

  /** Where the written code does not fail it agrees with the intended reading. */
  lemma AsWrittenAgrees(name: string, paths: seq<string>, isFile: string -> bool, extract: string -> string)
    ensures AllPartIdsAsWritten(name, paths, isFile, extract).Err? <==>
              HasFailure(ProcessAll(PathsNamed(paths, name), isFile, extract))
    ensures AllPartIdsAsWritten(name, paths, isFile, extract).Ok? ==>
              AllPartIdsAsWritten(name, paths, isFile, extract).value == AllPartIds(name, paths, isFile, extract)
  {
    var entries := ProcessAll(PathsNamed(paths, name), isFile, extract);
    if |entries| == 0 {
      assert PieceIds(entries, name) == [];
    }
  }

  lemma {:induction false} PieceIdsOfChunks(cs: seq<Chunk>, name: string)
    requires forall k :: 0 <= k < |cs| ==> cs[k].partId == k + 1 && cs[k].source == name
    ensures PieceIds(seq(|cs|, k requires 0 <= k < |cs| => Piece(cs[k])), name) == seq(|cs|, k requires 0 <= k < |cs| => k + 1)
    decreases |cs|
  {
    if |cs| > 0 {
      var front := cs[..|cs| - 1];
      PieceIdsOfChunks(front, name);
      var es := seq(|cs|, k requires 0 <= k < |cs| => Piece(cs[k]));
      assert es[..|es| - 1] == seq(|front|, k requires 0 <= k < |front| => Piece(front[k]));
    }
  }

  /**
   * For a single file of that name whose text is found, "draft every chunk"
   * asks for the parts 1, 2, ... up to its chunk count, in order.
   */
  lemma AllPartsOfOneFile(name: string, paths: seq<string>, path: string, isFile: string -> bool,
                          extract: string -> string)
    requires PathsNamed(paths, name) == [path] && isFile(path) && extract(path) != ""
    ensures var n := |Chunks(Words(extract(path)), name)|;
            AllPartIds(name, paths, isFile, extract) == seq(n, k requires 0 <= k < n => k + 1)
  {
    assert Basename(path) == name by {
      PathsNamedShape(paths, name);
      assert path in PathsNamed(paths, name);
    }
    var cs := Chunks(Words(extract(path)), name);
    assert ProcessAll([path], isFile, extract) == FileEntries(path, isFile, extract) by {
      assert [path][..0] == [];
    }
    PartIdsDense(Words(extract(path)), name);
    PieceIdsOfChunks(cs, name);
  }

  /** The paths kept for a name are exactly the paths with that basename. */
  lemma {:induction false} PathsNamedShape(paths: seq<string>, name: string)
    ensures forall p :: p in PathsNamed(paths, name) ==> Basename(p) == name
    ensures forall k :: 0 <= k < |paths| && Basename(paths[k]) == name ==> paths[k] in PathsNamed(paths, name)
    decreases |paths|
  {
    if |paths| > 0 {
      var front, last := paths[..|paths| - 1], paths[|paths| - 1];
      PathsNamedShape(front, name);
      var extra := if Basename(last) == name then [last] else [];
      assert PathsNamed(paths, name) == PathsNamed(front, name) + extra;
      forall p | p in PathsNamed(paths, name) ensures Basename(p) == name {
        if p !in PathsNamed(front, name) {
          assert p in extra;
        }
      }
      forall k | 0 <= k < |paths| && Basename(paths[k]) == name ensures paths[k] in PathsNamed(paths, name) {
        if k < |front| {
          assert paths[k] == front[k];
        }
      }
    }
  }

  // ---------------------------------------------------------------------
  // Collecting the references to draft (lines 200-212)
  // ---------------------------------------------------------------------

  /** The files of the form, `chunk_inputs`' keys: the basenames of the paths, first appearance first. */
  function FormNames(paths: seq<string>): seq<string> {
    FirstSeen(seq(|paths|, k requires 0 <= k < |paths| => Basename(paths[k])))
  }

  /** The distinct elements of a list, in order of first appearance. */
  function FirstSeen(xs: seq<string>): seq<string>
    decreases |xs|
  {
    if |xs| == 0 then []
    else
      var seen := FirstSeen(xs[..|xs| - 1]);
      if xs[|xs| - 1] in seen then seen else seen + [xs[|xs| - 1]]
  }

  /** The first appearances hold each element once, and hold every element of the list. */
  lemma {:induction false} FirstSeenShape(xs: seq<string>)
    ensures forall i, j :: 0 <= i < j < |FirstSeen(xs)| ==> FirstSeen(xs)[i] != FirstSeen(xs)[j]
    ensures forall n :: n in FirstSeen(xs) <==> n in xs
    decreases |xs|
  {
    if |xs| > 0 {
      FirstSeenShape(xs[..|xs| - 1]);
      assert xs == xs[..|xs| - 1] + [xs[|xs| - 1]];
    }
  }

  /** The form shows one field for each basename of the paths, and for nothing else. */
  lemma FormNamesShape(paths: seq<string>)
    ensures forall i, j :: 0 <= i < j < |FormNames(paths)| ==> FormNames(paths)[i] != FormNames(paths)[j]
    ensures forall n :: n in FormNames(paths) <==> exists k :: 0 <= k < |paths| && Basename(paths[k]) == n
  {
    var xs := seq(|paths|, k requires 0 <= k < |paths| => Basename(paths[k]));
    FirstSeenShape(xs);
    forall n ensures n in xs <==> exists k :: 0 <= k < |paths| && Basename(paths[k]) == n {
      if n in xs {
        var k :| 0 <= k < |xs| && xs[k] == n;
        assert Basename(paths[k]) == n;
      }
      if exists k :: 0 <= k < |paths| && Basename(paths[k]) == n {
        var k :| 0 <= k < |paths| && Basename(paths[k]) == n;
        assert xs[k] == n;
      }
    }
  }

  /**
   * The ids the form gives for one file, as written: all of its chunks when
   * the box is ticked (which raises when one of its paths gives an error
   * entry), else the ids of its field.
   */
  function FieldIds(name: string, text: string -> string, all: string -> bool, paths: seq<string>,
                    isFile: string -> bool, extract: string -> string): Result<seq<nat>>
  {
    if all(name) then AllPartIdsAsWritten(name, paths, isFile, extract)
    else if text(name) != "" then Ok(ParsePartIds(text(name)))
    else Ok([])
  }

  /** The evidently intended reading of a ticked box: the ids of every chunk found, error entries skipped. */
  function FieldIdsIntended(name: string, text: string -> string, all: string -> bool, paths: seq<string>,
                            isFile: string -> bool, extract: string -> string): seq<nat>
  {
    if all(name) then AllPartIds(name, paths, isFile, extract)
    else if text(name) != "" then ParsePartIds(text(name))
    else []
  }

  /** `(name, id) for id in ids` */
  function Pairs(name: string, ids: seq<nat>): seq<Selection> {
    seq(|ids|, k requires 0 <= k < |ids| => (name, ids[k]))
  }

  /** `user_chunks_to_draft` after the loop over the form's files; the first exception ends the handler. */
  function References(names: seq<string>, text: string -> string, all: string -> bool, paths: seq<string>,
                      isFile: string -> bool, extract: string -> string): Result<seq<Selection>>
    decreases |names|
  {
    if |names| == 0 then Ok([])
    else
      var n := names[|names| - 1];
      match References(names[..|names| - 1], text, all, paths, isFile, extract)
      case Err(e) => Err(e)
      case Ok(refs) =>
        match FieldIds(n, text, all, paths, isFile, extract)
        case Err(e) => Err(e)
        case Ok(ids) => Ok(refs + Pairs(n, ids))
  }

  /** The references as evidently intended: no file makes the collection fail. */
  function ReferencesIntended(names: seq<string>, text: string -> string, all: string -> bool, paths: seq<string>,
                              isFile: string -> bool, extract: string -> string): seq<Selection>
    decreases |names|
  {
    if |names| == 0 then []
    else
      var n := names[|names| - 1];
      ReferencesIntended(names[..|names| - 1], text, all, paths, isFile, extract)
        + Pairs(n, FieldIdsIntended(n, text, all, paths, isFile, extract))
  }

  lemma ReferencesStep(names: seq<string>, i: nat, text: string -> string, all: string -> bool, paths: seq<string>,
                       isFile: string -> bool, extract: string -> string, refs: seq<Selection>)
    requires i < |names| && References(names[..i], text, all, paths, isFile, extract) == Ok(refs)
    ensures References(names[..i + 1], text, all, paths, isFile, extract) ==
            match FieldIds(names[i], text, all, paths, isFile, extract)
            case Err(e) => Err(e)
            case Ok(ids) => Ok(refs + Pairs(names[i], ids))
  {
    assert names[..i + 1][..i] == names[..i];
  }

  /** Once a file has raised, the files after it change nothing. */
  lemma {:induction false} ReferencesErrSticks(names: seq<string>, j: nat, text: string -> string, all: string -> bool,
                                               paths: seq<string>, isFile: string -> bool, extract: string -> string)
    requires j <= |names| && References(names[..j], text, all, paths, isFile, extract).Err?
    ensures References(names, text, all, paths, isFile, extract) == References(names[..j], text, all, paths, isFile, extract)
    decreases |names| - j
  {
    if j < |names| {
      var front := names[..|names| - 1];
      assert front[..j] == names[..j];
      ReferencesErrSticks(front, j, text, all, paths, isFile, extract);
    } else {
      assert names[..j] == names;
    }
  }

  /** The loop itself: the references, or the error of the first file that raises. */
  method CollectReferences(names: seq<string>, text: string -> string, all: string -> bool, paths: seq<string>,
                           isFile: string -> bool, extract: string -> string) returns (refs: Result<seq<Selection>>)
    ensures refs == References(names, text, all, paths, isFile, extract)
  {
    var collected: seq<Selection> := [];
    for i := 0 to |names|
      invariant References(names[..i], text, all, paths, isFile, extract) == Ok(collected)
    {
      var name := names[i];
      var ids: seq<nat>;
      ReferencesStep(names, i, text, all, paths, isFile, extract, collected);
      if all(name) {
        var found := AllPartIdsAsWritten(name, paths, isFile, extract);
        if found.Err? {
          ReferencesErrSticks(names, i + 1, text, all, paths, isFile, extract);
          return Err(found.error);
        }
        ids := found.value;
      } else if text(name) != "" {
        ids := ParsePartIds(text(name));
      } else {
        ids := [];
      }
      collected := collected + Pairs(name, ids);
    }
    assert names[..|names|] == names;
    refs := Ok(collected);
  }

  /** A file raises when its box is ticked and one of its paths gives an error entry. */
  predicate Raises(name: string, all: string -> bool, paths: seq<string>, isFile: string -> bool,
                   extract: string -> string)
  {
    all(name) && HasFailure(ProcessAll(PathsNamed(paths, name), isFile, extract))
  }

  /** Some name of the list satisfies `p`. */
  predicate AnyNamed(names: seq<string>, p: string -> bool) {
    exists k :: 0 <= k < |names| && p(names[k])
  }

  lemma AnyNamedStep(names: seq<string>, p: string -> bool)
    requires |names| > 0
    ensures AnyNamed(names, p) <==> AnyNamed(names[..|names| - 1], p) || p(names[|names| - 1])
  {
    var front := names[..|names| - 1];
    if AnyNamed(names, p) {
      var k :| 0 <= k < |names| && p(names[k]);
      if k < |front| {
        assert front[k] == names[k];
      }
    }
    if AnyNamed(front, p) {
      var k :| 0 <= k < |front| && p(front[k]);
      assert names[k] == front[k];
    }
  }

  function RaisesOf(all: string -> bool, paths: seq<string>, isFile: string -> bool,
                    extract: string -> string): string -> bool
  {
    n => Raises(n, all, paths, isFile, extract)
  }

  predicate SomeFileRaises(names: seq<string>, all: string -> bool, paths: seq<string>,
                           isFile: string -> bool, extract: string -> string)
  {
    AnyNamed(names, RaisesOf(all, paths, isFile, extract))
  }

  lemma SomeFileRaisesStep(names: seq<string>, all: string -> bool, paths: seq<string>,
                           isFile: string -> bool, extract: string -> string)
    requires |names| > 0
    ensures SomeFileRaises(names, all, paths, isFile, extract) <==>
              SomeFileRaises(names[..|names| - 1], all, paths, isFile, extract)
              || Raises(names[|names| - 1], all, paths, isFile, extract)
  {
    AnyNamedStep(names, RaisesOf(all, paths, isFile, extract));
  }

  /**
   * As written the collection fails exactly when some listed file raises,
   * and otherwise it is the intended collection.
   */
  lemma {:induction false} ReferencesAsWrittenAgree(names: seq<string>, text: string -> string, all: string -> bool,
                                                    paths: seq<string>, isFile: string -> bool,
                                                    extract: string -> string)
    ensures References(names, text, all, paths, isFile, extract).Err? <==>
              SomeFileRaises(names, all, paths, isFile, extract)
    ensures References(names, text, all, paths, isFile, extract).Ok? ==>
              References(names, text, all, paths, isFile, extract).value ==
              ReferencesIntended(names, text, all, paths, isFile, extract)
    decreases |names|
  {
    if |names| > 0 {
      var front := names[..|names| - 1];
      var n := names[|names| - 1];
      ReferencesAsWrittenAgree(front, text, all, paths, isFile, extract);
      FieldIdsAgree(n, text, all, paths, isFile, extract);
      SomeFileRaisesStep(names, all, paths, isFile, extract);
    }
  }

  lemma {:induction false} IdsOfAppend(a: seq<Selection>, b: seq<Selection>, name: string)
    ensures IdsOf(a + b, name) == IdsOf(a, name) + IdsOf(b, name)
    decreases |b|
  {
    if |b| == 0 {
      assert a + b == a;
    } else {
      IdsOfAppend(a, b[..|b| - 1], name);
      assert (a + b)[..|a + b| - 1] == a + b[..|b| - 1];
    }
  }

  lemma {:induction false} IdsOfPairs(m: string, ids: seq<nat>, name: string)
    ensures IdsOf(Pairs(m, ids), name) == if m == name then ids else []
    decreases |ids|
  {
    if |ids| > 0 {
      IdsOfPairs(m, ids[..|ids| - 1], name);
      assert Pairs(m, ids)[..|ids| - 1] == Pairs(m, ids[..|ids| - 1]);
    }
  }

  /**
   * The intended collection over distinct file names: the references for
   * each file are exactly what its own field or box asks for, in that
   * order; names outside the form get none.
   */
  lemma {:induction false} ReferencesPerFile(names: seq<string>, text: string -> string, all: string -> bool,
                                             paths: seq<string>, isFile: string -> bool,
                                             extract: string -> string, name: string)
    requires forall i, j :: 0 <= i < j < |names| ==> names[i] != names[j]
    ensures IdsOf(ReferencesIntended(names, text, all, paths, isFile, extract), name) ==
              if name in names then FieldIdsIntended(name, text, all, paths, isFile, extract) else []
    decreases |names|
  {
    if |names| > 0 {
      var front := names[..|names| - 1];
      var n := names[|names| - 1];
      ReferencesPerFile(front, text, all, paths, isFile, extract, name);
      IdsOfAppend(ReferencesIntended(front, text, all, paths, isFile, extract),
                  Pairs(n, FieldIdsIntended(n, text, all, paths, isFile, extract)), name);
      IdsOfPairs(n, FieldIdsIntended(n, text, all, paths, isFile, extract), name);
      assert name in names <==> name in front || name == n;
    }
  }

  /** Where one file's ids do not raise they are the intended ones. */
  lemma FieldIdsAgree(name: string, text: string -> string, all: string -> bool, paths: seq<string>,
                      isFile: string -> bool, extract: string -> string)
    ensures FieldIds(name, text, all, paths, isFile, extract).Err? <==> Raises(name, all, paths, isFile, extract)
    ensures FieldIds(name, text, all, paths, isFile, extract).Ok? ==>
              FieldIds(name, text, all, paths, isFile, extract).value ==
              FieldIdsIntended(name, text, all, paths, isFile, extract)
  {
    if all(name) {
      AsWrittenAgrees(name, paths, isFile, extract);
      assert FieldIds(name, text, all, paths, isFile, extract) == AllPartIdsAsWritten(name, paths, isFile, extract);
    } else {
      assert !Raises(name, all, paths, isFile, extract);
    }
  }

  /**
   * The whole form, as written, fails exactly when the box of one of its
   * files is ticked and a path with that basename gives an error entry.
   */
  lemma FormCollectionFails(paths: seq<string>, text: string -> string, all: string -> bool,
                            isFile: string -> bool, extract: string -> string)
    ensures References(FormNames(paths), text, all, paths, isFile, extract).Err? <==>
              exists n :: n in FormNames(paths) && Raises(n, all, paths, isFile, extract)
  {
    var names := FormNames(paths);
    ReferencesAsWrittenAgree(names, text, all, paths, isFile, extract);
    if exists n :: n in names && Raises(n, all, paths, isFile, extract) {
      var n :| n in names && Raises(n, all, paths, isFile, extract);
      var k :| 0 <= k < |names| && names[k] == n;
    }
  }

  /**
   * Otherwise the references for a file are what its own box or field asks
   * for, and a name that is not the basename of an uploaded path gets none.
   */
  lemma FormReferences(paths: seq<string>, text: string -> string, all: string -> bool,
                       isFile: string -> bool, extract: string -> string, name: string)
    ensures var r := References(FormNames(paths), text, all, paths, isFile, extract);
            r.Ok? && (exists k :: 0 <= k < |paths| && Basename(paths[k]) == name) ==>
              FieldIds(name, text, all, paths, isFile, extract).Ok? &&
              IdsOf(r.value, name) == FieldIds(name, text, all, paths, isFile, extract).value
    ensures var r := References(FormNames(paths), text, all, paths, isFile, extract);
            r.Ok? && !(exists k :: 0 <= k < |paths| && Basename(paths[k]) == name) ==> IdsOf(r.value, name) == []
  {
    var names := FormNames(paths);
    var r := References(names, text, all, paths, isFile, extract);
    FormNamesShape(paths);
    ReferencesAsWrittenAgree(names, text, all, paths, isFile, extract);
    if r.Ok? {
      ReferencesPerFile(names, text, all, paths, isFile, extract, name);
      if name in names {
        var k :| 0 <= k < |names| && names[k] == name;
        FieldIdsAgree(name, text, all, paths, isFile, extract);
      }
    }
  }

  // ---------------------------------------------------------------------
  // The strategy download (lines 129-134)
  // ---------------------------------------------------------------------

  /** `f"{file_name},{','.join(str(p) for p in parts)}"` */
  function GroupLine(entry: (string, seq<int>)): string {
    entry.0 + "," + Join(",", seq(|entry.1|, k requires 0 <= k < |entry.1| => IntToString(entry.1[k])))
  }

  /** The download offered after the strategy run, as written: one line per file, all its ids on it. */
  function GroupedDownloadAsWritten(g: Suggestions): string {
    Join("\n", seq(|g|, i requires 0 <= i < |g| => GroupLine(g[i])))
  }

  /** The download of one file with parts 1 and 2 is the single line "a,1,2". */
  lemma DownloadOfTwoParts()
    ensures GroupedDownloadAsWritten([("a", [1, 2])]) == "a,1,2"
  {
    var e: (string, seq<int>) := ("a", [1, 2]);
    var ids := seq(|e.1|, k requires 0 <= k < |e.1| => IntToString(e.1[k]));
    assert IntToString(1) == "1" && IntToString(2) == "2";
    assert ids == ["1", "2"];
    assert Join(",", ids) == "1,2";
    var line := "a,1,2";
    assert GroupLine(("a", [1, 2])) == line;
    var lines := seq(1, i requires 0 <= i < 1 => GroupLine([("a", [1, 2])][i]));
    assert lines == [line];
  }

  /** The reader refuses the line "a,1,2": it splits into three fields. */
  lemma ThreeFieldLineRefused()
    ensures ReadSuggestions("a,1,2") == Err("a,1,2")
  {
    var line := "a,1,2";
    SplitNoSeparator(line, '\n');
    StripNoEdgeSpace(line);
    ThreeFields();
    assert [line][..0] == [];
  }

  lemma ThreeFields()
    ensures |Split("a,1,2", ',')| == 3
  {
    SplitFirst("a", ',', "1,2");
    SplitFirst("1", ',', "2");
    SplitNoSeparator("2", ',');
    assert "a,1,2" == "a" + [','] + "1,2";
    assert "1,2" == "1" + [','] + "2";
  }

  /** A file with two selected parts gives a line the chunk-list reader refuses. */
  lemma GroupedDownloadUnreadable()
    ensures GroupedDownloadAsWritten([("a", [1, 2])]) == "a,1,2"
    ensures ReadSuggestions(GroupedDownloadAsWritten([("a", [1, 2])])) == Err("a,1,2")
  {
    DownloadOfTwoParts();
    ThreeFieldLineRefused();
  }

  // ---------------------------------------------------------------------
  // The section selector
  // ---------------------------------------------------------------------

  /** `section_names`, in its order. */
  const SectionTable: seq<(string, string)> := [
    (General, "Rédiger en suivant un exemple"),
    ("1.1", "Contexte et besoin objectif"),
    ("1.2", "Étude de marché"),
    ("1.3", "Innovation Produit et Progrès"),
    ("1.5", "Indicateurs ou conclusion sur l'innovation"),
    ("1.6", "Présentation de l'entreprise"),
    ("1.7", "Présentation des activités d'innovation")
  ]

  const Separator: string := " - "

  /** The label of a selector option: `f"{key} - {section_names[key]}"`. */
  function OptionLabel(entry: (string, string)): string {
    entry.0 + Separator + entry.1
  }

  /** `s.split(sep)[0]`: what comes before the first occurrence of `sep`. */
  function BeforeFirst(s: string, sep: string): (r: string)
    requires |sep| > 0
    ensures StartsWith(s, r)
    decreases |s|
  {
    if |s| < |sep| then s
    else if s[..|sep|] == sep then ""
    else [s[0]] + BeforeFirst(s[1..], sep)
  }

  /** The key the tool receives for a chosen option (line 259). */
  function SelectedSection(option: string): (r: string)
    ensures StartsWith(option, r)
  {
    if Contains(option, Separator) then BeforeFirst(option, Separator) else option
  }

  lemma {:induction false} BeforeFirstOfKey(key: string, rest: string)
    requires '-' !in key
    ensures BeforeFirst(key + Separator + rest, Separator) == key
    decreases |key|
  {
    var s := key + Separator + rest;
    if |key| == 0 {
      assert s[..|Separator|] == Separator;
    } else {
      assert s[1] != '-' by {
        if |key| > 1 {
          assert s[1] == key[1];
        } else {
          assert s[1] == Separator[0];
        }
      }
      assert Separator[1] == '-';
      assert s[..|Separator|] != Separator;
      BeforeFirstOfKey(key[1..], rest);
      assert s[1..] == key[1..] + Separator + rest;
      assert [key[0]] + key[1..] == key;
    }
  }

  /** Every option of the selector gives back its own key, and the keys are exactly the tool's sections. */
  lemma SectionKeysRoundTrip()
    ensures forall i :: 0 <= i < |SectionTable| ==> SelectedSection(OptionLabel(SectionTable[i])) == SectionTable[i].0
    ensures forall i :: 0 <= i < |SectionTable| ==> SectionTable[i].0 == KnownSections[i]
    ensures |SectionTable| == |KnownSections|
  {
    forall i | 0 <= i < |SectionTable|
      ensures SelectedSection(OptionLabel(SectionTable[i])) == SectionTable[i].0
    {
      var e := SectionTable[i];
      assert '-' !in e.0;
      ContainsAt(e.0, Separator, e.1);
      BeforeFirstOfKey(e.0, e.1);
    }
  }

  // ---------------------------------------------------------------------
  // The checks before the section tool
  // ---------------------------------------------------------------------

  /** The raw values of the section form's fields. */
  datatype Form = Form(content: string, synthesis: string, solution: string, company: string, example: string)

  const ExampleWarning: string := "Un exemple de texte est requis pour le mode général."
  const CompanyWarning: string := "Le nom de l'entreprise est requis pour la section 1.6."
  const SynthesisWarning: string := "Une synthèse est requise pour les sections 1.1 et 1.7."
  const SolutionWarning: string := "Le nom de la solution est requis pour les sections 1.2 et 1.3."

  /** Lines 293-300: the first check that fails gives its warning, and the tool is not called. */
  function UiWarning(section: string, f: Form): (r: Option<string>)
    ensures r.None? <==>
              && (section == General ==> f.example != "")
              && (section == "1.6" ==> f.company != "")
              && (section == "1.1" || section == "1.7" ==> f.synthesis != "")
              && (section == "1.2" || section == "1.3" ==> f.solution != "")
    ensures r.Some? ==> r.value in [ExampleWarning, CompanyWarning, SynthesisWarning, SolutionWarning]
    ensures r == Some(ExampleWarning) <==> section == General && f.example == ""
    ensures r == Some(CompanyWarning) <==> section == "1.6" && f.company == ""
    ensures r == Some(SynthesisWarning) <==> (section == "1.1" || section == "1.7") && f.synthesis == ""
    ensures r == Some(SolutionWarning) <==> (section == "1.2" || section == "1.3") && f.solution == ""
  {
    if section == General && f.example == "" then Some(ExampleWarning)
    else if section == "1.6" && f.company == "" then Some(CompanyWarning)
    else if (section == "1.1" || section == "1.7") && f.synthesis == "" then Some(SynthesisWarning)
    else if (section == "1.2" || section == "1.3") && f.solution == "" then Some(SolutionWarning)
    else None
  }

  /** The arguments the tool gets: a field not shown for the section is passed as empty. */
  function ToolInputs(section: string, f: Form): (r: Inputs)
    ensures r.section == section && r.example == f.example
    ensures r.synthesis != "" ==> section == "1.1" || section == "1.7"
    ensures r.solution != "" ==> section == "1.2" || section == "1.3"
    ensures r.company != "" ==> section == "1.6"
    ensures r.content != "" ==> section != "1.6"
    ensures section == "1.6" ==> r.company == f.company
    ensures section == "1.2" || section == "1.3" ==> r.solution == f.solution
    ensures section == "1.1" || section == "1.7" ==> r.synthesis == f.synthesis
    ensures section in [General, "1.1", "1.2", "1.3", "1.5", "1.7"] ==> r.content == f.content
  {
    var showsContent := section in [General, "1.1", "1.2", "1.3", "1.5", "1.7"];
    Inputs(if showsContent then f.content else "",
           if section == "1.1" || section == "1.7" then f.synthesis else "",
           section,
           if section == "1.2" || section == "1.3" then f.solution else "",
           if section == "1.6" then f.company else "",
           f.example)
  }

  /**
   * For a section offered by the selector, passing the form's checks means
   * the tool's own checks pass too; the form is stricter only in asking for
   * a synthesis for 1.1 and 1.7, which the tool does not need.
   */
  lemma FormChecksCoverTool(section: string, f: Form)
    requires section in KnownSections
    ensures UiWarning(section, f).None? ==> Refusal(ToolInputs(section, f)).None?
    ensures Refusal(ToolInputs(section, f)).Some? ==> UiWarning(section, f).Some?
    ensures UiWarning(section, f).Some? && Refusal(ToolInputs(section, f)).None? <==>
              (section == "1.1" || section == "1.7") && f.synthesis == ""
  {
  }
}
