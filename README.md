# Drafting-assistant core, modelled in Dafny

The repository is a Streamlit application. It helps write French innovation reports from uploaded documents. This project models its deterministic core:

- **Chunker** (`chunker.dfy`): processes files and cuts the extracted text into word windows.
  - Every input path becomes one error entry or the chunks of its text.
  - A text of fewer than 700 words is one chunk.
  - A longer text is cut into windows whose offsets are 600 words apart. Each window spans `[max(0, i - 100), min(i + 700, n))`.
  - Chunks get dense 1-based part ids, and a "Basse" priority when they hold fewer than 150 words.
- **Navigation** (`navigation.dfy`): what the two navigating tools share.
  - Grouping the chunks by file.
  - The pointer guard `isinstance(N, int) and 1 <= N <= total`.
  - The line-oriented reply parser, as a per-line classification folded left to right, so the last matching line wins.
  - The visited-list bound.
- **Strategy** (`strategy.dfy`): the strategy tool.
  - A per-file walk that starts at part 1.
  - It evaluates each part once, and it stops on "fin", an out-of-range pointer, a revisited part or a raised call.
  - It selects `(file, part)` when the verdict is "oui".
  - It writes the selection as `name,part` lines.
- **WorkDrafting** (`workdrafting.dfy`): the work-drafting tool.
  - The same walk, but it collects drafted works and error or marker lines.
  - The result is joined by blank lines.
- **DirectDrafting** (`directdrafting.dfy`): the direct-drafting tool.
  - It makes one output entry per `(file, part)` reference.
  - It looks up the chunk by part id.
  - Its continuity tail is the last 30 words of the previous works, kept only when those works have at least 20 words.
- **Sections** (`sections.dfy`): the section drafter.
  - The API-key check, then the validation table of section ids and inputs.
  - The company search fallback for section 1.6.
  - Which fields each prompt embeds.
  - The section 1.2 template, literal by literal, with the four literals that lack the `f` prefix.
- **App** (`app.dfy`): the application's text handling.
  - The `chunks_to_draft.txt` reader and its round trip with the strategy tool's writer.
  - The comma-separated part-id field and its default value.
  - Collecting the references to draft, including the KeyError that a ticked unreadable file raises.
  - Extracting the section key from the selector label.
  - The order of the form checks.
- **Text** (`text.dfy`) and **Llm** (`llm.dfy`) hold the supporting pieces:
  - the Python string operations the core relies on: whitespace split, strip, `split(',')`, `isdigit`, `int`, `str`;
  - the provider choice that decides which API-key variable is read.

Modelling choices:

- **Remote calls are parameters.** The chat-completion endpoint is a function from a request to a reply. The request is a datatype naming the fields the prompt embeds, and the reply is an answer text or a raised exception. The web search is a function from query to text.
- **The environment** is a `map<string, string>`.
- **File access is abstracted.** File existence and text extraction are functions from path to value.
- **Loops become methods.** Each loop of the source is a method with a `while` or `for` loop, proved equal to a specification function. The properties are lemmas about those functions.

A text of exactly 700 words takes the window branch of `_chunk_text` (`if len(words) < 700` is false), so it yields two chunks: words 0..699 and words 500..699.

## Model

| member | source | states |
|---|---|---|
| Chunker.Chunks | fileprocessingtool.py:82-118 | the chunk list has one chunk per window; chunk k holds window k's words joined by spaces, part id k+1, its priority and the file name |
| Chunker.ChunkText | fileprocessingtool.py:82-118 | the appending loop produces exactly the chunk list of the text's whitespace-separated words |
| Chunker.ShortTextIsOneChunk | fileprocessingtool.py:91-100 | fewer than 700 words give exactly one chunk: the joined words, part id 1, the file name as source |
| Chunker.LongTextWindowCount | fileprocessingtool.py:101-104 | at least 700 words give at least two chunks, and their number is ceil(n/600) |
| Chunker.SevenHundredWords | fileprocessingtool.py:91-105 | exactly 700 words take the window branch: two chunks, words 0..699 and 500..699 |
| Chunker.WindowSpan | fileprocessingtool.py:102-106 | in the window branch, chunk k is the words from max(0, 600k-100) up to min(600k+700, n) |
| Chunker.WindowExists | fileprocessingtool.py:102 | window k exists exactly when its offset 600k lies inside the text |
| Chunker.WindowBounds | fileprocessingtool.py:103-105 | every existing window is non-empty and ends inside the text |
| Chunker.PartIdsDense | fileprocessingtool.py:95-116 | the part ids are 1..count in emission order, and every chunk names the file |
| Chunker.PriorityMeansShort | fileprocessingtool.py:94-109 | a chunk is "Basse" iff it has fewer than 150 words, and has no priority otherwise |
| Chunker.WindowsCover | fileprocessingtool.py:102-105 | the first window starts at word 0, the last ends at word n, each starts before its predecessor ends, so every word is covered |
| Chunker.WindowOverlap | fileprocessingtool.py:103-104 | two consecutive full windows overlap by 200 words |
| Chunker.ChunkLengthBound | fileprocessingtool.py:103-105 | the first chunk has at most 700 words and every chunk at most 800 |
| Chunker.ChunkTextWords | fileprocessingtool.py:88-106 | splitting a chunk's text on whitespace gives back exactly the words of its window |
| Chunker.Basename | fileprocessingtool.py:29 | the base name is the suffix of the path after its last '/' and contains no '/' |
| Chunker.BasenameIdempotent | guessstrategytool.py:102 | a name without '/' is its own base name, so base names of chunk sources are stable |
| Chunker.ProcessFiles | fileprocessingtool.py:22-39 | the per-path loop produces the entries of every path, in input order |
| Chunker.FileEntriesShape | fileprocessingtool.py:24-37 | a path yields a single error entry iff the file is missing or its text is empty, and otherwise exactly its chunks |
| Chunker.SourcesAreBasenames | fileprocessingtool.py:29-37 | every chunk's source is a base name (no '/') |
| Navigation.ParsedPointerGuard | guessstrategytool.py:150-213 | on a parsed pointer the loop guard holds iff it is a number in 1..total; a word pointer is never all digits |
| Navigation.FinGuard | guessstrategytool.py:150 | "fin" never passes the loop guard |
| Navigation.Classify | guessstrategytool.py:201-216 | a next-pointer line always yields a number or a word that is not all digits |
| Navigation.Scan | guessstrategytool.py:195-216 | the line loop computes the left fold of the classified lines |
| Navigation.LabelledFromReply | guessstrategytool.py:196-203 | the verdict is the text of the last labelled line, or the prior value when there is none |
| Navigation.GuessFromReply | guessstrategytool.py:197-208 | the guess is that of the last "Guess:" line, or the previous guess when there is none |
| Navigation.NextFromReply | guessstrategytool.py:198-216 | the next pointer is that of the last "Prochain morceau" line, or absent when there is none |
| Navigation.ScannedPointerGuard | guessstrategytool.py:209-220 | after parsing any reply (a missing pointer read as "fin") the loop guard holds iff the pointer is a number in 1..total |
| Navigation.GroupByFile | guessstrategytool.py:97-105 | the grouping loop maps exactly the names of the chunk entries to their chunks, in order |
| Navigation.NothingProcessedMeansNoChunk | guessstrategytool.py:92-94 | "every entry is an error" holds iff no file produced a chunk |
| Navigation.ProcessedMessagesNonEmpty | fileprocessingtool.py:25-34 | every error entry carries a non-empty message, so the `chunk.get("error")` test is sound |
| Navigation.WorksReportShape | workdraftingtool.py:297-309 | no entries give the placeholder; otherwise the report starts with the first entry |
| Navigation.UnvisitedShrinks | guessstrategytool.py:151-156 | recording a new in-range part strictly shrinks the set of unvisited parts |
| Navigation.Zip | guessstrategytool.py:114 | zipping paths with infos stops at the shorter list |
| Navigation.VisitedBound | guessstrategytool.py:151-156 | a visited list without repeats, in 1..total, has at most total entries |
| Strategy.ParseEvaluation | guessstrategytool.py:195-220 | the reply-parsing loop returns the folded verdict, guess and next pointer |
| Strategy.DecidedPointerGuard | guessstrategytool.py:150-220 | after any reply the loop continues iff the new pointer is a number in 1..total |
| Strategy.WalkFile | guessstrategytool.py:149-231 | the per-file while loop computes the walk specification |
| Strategy.SelectFiles | guessstrategytool.py:114-231 | the loop over files accumulates the selections of every file walk |
| Strategy.RunStrategy | guessstrategytool.py:53-244 | the tool returns the result of the specification: key check, processing, grouping, walks |
| Strategy.StepPreserves | guessstrategytool.py:151-224 | one step keeps the visited list repeat-free and in range, and the selections repeat-free and visited |
| Strategy.WalkExtends | guessstrategytool.py:149-231 | a walk only extends the visited list and the selections, and adds only pairs for its own file |
| Strategy.WalkPreserves | guessstrategytool.py:151-224 | a whole walk keeps those invariants |
| Strategy.FileStepPreserves | guessstrategytool.py:114-231 | one file's turn keeps the run invariant |
| Strategy.FilesPreserve | guessstrategytool.py:114-231 | the run invariant holds after all files |
| Strategy.SelectionsDistinctAndInRange | guessstrategytool.py:150-224 | the selected pairs never repeat, and each names a processed file and a part in 1..its chunk count |
| Strategy.EarlyExits | guessstrategytool.py:61-94 | a missing key, or no file processed, gives [] whatever the model would answer |
| Strategy.FailedInitialGuessSkipsFile | guessstrategytool.py:144-146 | a raised initial guess leaves the selections and the visited parts unchanged |
| Strategy.RaisedStepStops | guessstrategytool.py:229-231 | a raised step records the part, keeps earlier selections and ends the file |
| Strategy.WalkCallBound | guessstrategytool.py:150-156 | a walk visits at most total parts, so it makes at most total step calls |
| Strategy.SelectionFileLines | guessstrategytool.py:234-238 | the written file splits into one `name,part` line per selection, in order, then an empty tail |
| WorkDrafting.ParseDraft | workdraftingtool.py:241-271 | the reply-parsing loop returns the folded works text, guess and next pointer |
| WorkDrafting.ReadPointerGuard | workdraftingtool.py:260-271 | after any reply the loop continues iff the new pointer is a number in 1..total |
| WorkDrafting.WalkFile | workdraftingtool.py:162-294 | the per-file while loop computes the walk specification |
| WorkDrafting.DraftFiles | workdraftingtool.py:125-294 | the loop over files accumulates the notes of every file |
| WorkDrafting.RunWorkDrafting | workdraftingtool.py:57-309 | the tool returns the result of the specification: key check, processing, files, report |
| WorkDrafting.WalkNotes | workdraftingtool.py:164-294 | a walk only appends well-formed notes for its own file, all drafted works except possibly a final error, at most one per visited part plus one |
| WorkDrafting.WalkVisitedValid | workdraftingtool.py:164-171 | the visited list stays repeat-free and in 1..total |
| WorkDrafting.RevisitStops | workdraftingtool.py:165-168 | any in-range pointer to a part already visited adds the "déjà traité" entry and stops the file |
| WorkDrafting.RevisitStopsAtOnce | workdraftingtool.py:125-168 | in particular a file met again under the same base name stops at once, since its part 1 was processed |
| WorkDrafting.FileStepPreserves | workdraftingtool.py:125-294 | one file's turn keeps the run invariant |
| WorkDrafting.FilesPreserve | workdraftingtool.py:125-294 | the run invariant holds after all files |
| WorkDrafting.ReportNotesFit | workdraftingtool.py:128-294 | every note names a processed file and an in-range part, or is a marker for a file without chunks |
| WorkDrafting.EarlyExits | workdraftingtool.py:65-101 | a missing key gives the error naming `{PROVIDER}_API_KEY`; no file processed gives the "Aucun fichier" error |
| DirectDrafting.FileInfoDefault | directdraftingtool.py:110-131 | a file without a matching info gets "Informations non disponibles" |
| DirectDrafting.FileInfoLastWins | directdraftingtool.py:110 | with repeated base names, the last info wins, as in a dict comprehension |
| DirectDrafting.FindPart | directdraftingtool.py:121-125 | the lookup finds the first chunk with the part id, or reports that none has it |
| DirectDrafting.LastWordsAreTheTail | directdraftingtool.py:134-137 | the tail is empty below 20 words, and otherwise is the last 30 words (all of them when there are fewer) |
| DirectDrafting.DraftReferences | directdraftingtool.py:113-169 | the loop over references computes the batch specification |
| DirectDrafting.RunDirectDrafting | directdraftingtool.py:52-184 | the tool returns the result of the specification |
| DirectDrafting.OneNotePerReference | directdraftingtool.py:113-169 | exactly one note per reference, in order, each the right kind for its reference; the continuity text is the last answered works |
| DirectDrafting.StepAppendsOne | directdraftingtool.py:158-169 | one step appends exactly one note and keeps the earlier ones |
| DirectDrafting.NoReferenceGivesPlaceholder | directdraftingtool.py:172-184 | no reference gives the single placeholder |
| DirectDrafting.EarlyExits | directdraftingtool.py:60-93 | a missing key, or no file processed, returns the corresponding error |
| Sections.PlaceholderUnmarked | draftingtool.py:47-48 | the fallback text contains neither "Erreur" nor "Aucun résultat" |
| Sections.WebDataUnmarked | draftingtool.py:46-48 | a search result is kept iff it has neither mark, and the result never has one |
| Sections.BasePromptNamesSection | draftingtool.py:51-53 | the prompt names the section iff it is not "general" |
| Sections.BasePromptShowsExample | draftingtool.py:54-58 | the example block is present iff an example is given, and it contains the example |
| Sections.RenderHoldsLine | draftingtool.py:86-101 | the adjacent literals of a template are concatenated, so every literal's text, and what its placeholder shows, is part of the prompt |
| Sections.InterpolatedBraceFree | draftingtool.py:86-101 | when every literal is an f-string, the rendered text has a brace only if the wording or a field value has one |
| Sections.MarketMentionsAsWritten | draftingtool.py:88-99 | as written, lines 88 and 92 show the solution name, and lines 91, 95, 98 and 99 show the literal `{solution_name}` |
| Sections.MarketTemplateShowsPlaceholder | draftingtool.py:91 | so the 1.2 prompt the tool builds contains `{solution_name}` whatever the solution |
| Sections.MarketPromptHoldsFields | draftingtool.py:88-93 | the 1.2 prompt still holds the solution name (line 88) and the competitor data (line 93) |
| Sections.IntendedMentionsNameSolution | draftingtool.py:86-101 | once every literal is an f-string, each `{solution_name}` shows the solution and each `{content_to_draft}` the content |
| Sections.IntendedPromptHoldsFields | draftingtool.py:88-93 | the intended 1.2 prompt holds the solution name and the competitor data |
| Sections.IntendedPromptNamesSolution | draftingtool.py:86-101 | the intended 1.2 prompt holds no `{solution_name}` when the wording and the fields hold no brace |
| Sections.Decide | draftingtool.py:40-144 | the checks and the prompt choice before the call; a prompt always starts from the base prompt of the section and the example |
| Sections.DecidedMarketPrompt | draftingtool.py:82-101 | for 1.2 with a solution, the tool prompts with the as-written template, which shows `{solution_name}` |
| Sections.DraftSection | draftingtool.py:25-160 | the whole tool: key check, section checks, then the model call; its outcomes are stated by KeyCheckedFirst and DraftOutcome |
| Sections.RefusalTable | draftingtool.py:40-144 | the tool refuses iff the validation table gives an error, and returns that error |
| Sections.RefusalOfCompany | draftingtool.py:42-44 | section 1.6 is refused iff the company name is empty, with the company error |
| Sections.RefusalOfSolution | draftingtool.py:84-105 | sections 1.2 and 1.3 are refused iff the solution name is empty, with the error naming the section |
| Sections.RefusalOfPlain | draftingtool.py:70-142 | sections 1.1, 1.5 and 1.7 are never refused |
| Sections.RefusalOfUnknown | draftingtool.py:143-144 | any section outside the seven known ones gets the "Section non reconnue" error |
| Sections.PromptEmbedsFields | draftingtool.py:60-142 | each section's prompt embeds exactly the fields that section uses: the content for general, 1.1, 1.2, 1.3, 1.5 and 1.7, the synthesis for 1.1 and 1.7, the solution for 1.2 and 1.3, the company and its web data for 1.6; the 1.2 body is the as-written template over the solution and the content |
| Sections.SearchOnlyForCompany | draftingtool.py:40-48 | the search result matters only for section 1.6 with a company name |
| Sections.KeyCheckedFirst | draftingtool.py:25-36 | a missing key gives the key error before any section check |
| Sections.DraftOutcome | draftingtool.py:146-160 | with a key, the result is the refusal, the stripped answer, or the failure message |
| App.AddRecords | app.py:181-184 | appending an id records it under its name only; a new name is appended to the name order |
| App.AddKeepsDistinct | app.py:181-184 | the grouping never lists a name twice |
| App.GroupedByName | app.py:178-184 | the grouped names are those that occur, once each, and each name's ids are its ids in line order |
| App.ReadChunkList | app.py:177-184 | the reading loop returns the grouped suggestions, or the first line that fails |
| App.ReadErrorSticks | app.py:178-184 | once a line fails, the reading fails with that line |
| App.ReadLineCases | app.py:179-184 | a blank line is skipped; another line fails iff it does not have exactly one comma or its id is not an integer |
| App.ReadLineOfSelection | app.py:179-184 | a written `name,part` line is read back as that pair |
| App.ReadWrittenLines | app.py:178-184 | reading written lines groups their pairs |
| App.SelectionRoundTrip | app.py:177-184 | reading the strategy tool's file back gives its selections grouped by name |
| App.DigitTokensFrom | app.py:211 | the field parser keeps a number for each token that is all digits once stripped, and none for any other token |
| App.ParsePartIds | app.py:211 | the ids read from a field come from its all-digit tokens, every such token gives one, and there are no more ids than tokens |
| App.DigitTokensAppend | app.py:211 | parsing the field distributes over concatenated tokens |
| App.DigitTokenSingle | app.py:211 | a token is kept iff it is all digits after stripping, as its integer |
| App.IntTokenRead | app.py:196-211 | a written non-negative id, with or without the leading space of ", ", is read back |
| App.DefaultValueParses | app.py:196-211 | parsing the `", ".join(...)` of ids gives back the non-negative ids in order |
| App.SuggestedIdsSurviveTheField | app.py:196-211 | the default value of a suggested file parses back to its suggested ids |
| App.IdsForAbsent | app.py:196 | a name without suggestions has no ids and an empty default |
| App.SelectedPartsReachTheField | app.py:177-211 | the field of a file selected by the strategy tool parses to exactly its selected parts |
| App.MissingFileFailsCollection | app.py:203-209 | as written, "Tout rédiger" on a path that yields an error entry fails |
| App.AllPartsOfOneFile | app.py:203-209 | intended: a file's ids are 1..its chunk count |
| App.AsWrittenAgrees | app.py:205-209 | the written code fails iff there is an error entry, and otherwise agrees with the intended ids |
| App.PathsNamedShape | app.py:205 | the paths kept are exactly the paths with that base name |
| App.FormNamesShape | app.py:194-197 | the form lists each base name once, exactly the base names of the paths |
| App.CollectReferences | app.py:201-212 | the loop over form fields collects the references, or stops with the error of the first ticked file that raises |
| App.ReferencesErrSticks | app.py:202-209 | once a file has raised, the files after it change nothing |
| App.FieldIdsAgree | app.py:203-212 | one file's ids raise iff its box is ticked and a path of that name gives an error entry, and otherwise are the intended ids |
| App.ReferencesAsWrittenAgree | app.py:201-212 | the collection fails iff some listed file raises, and otherwise equals the intended collection |
| App.ReferencesPerFile | app.py:201-212 | intended: for each listed file, the references name exactly its field's ids |
| App.FormCollectionFails | app.py:194-212 | the form's collection fails iff a ticked file of the form has a path that gives an error entry |
| App.FormReferences | app.py:194-212 | otherwise the references of a base name are its field's ids when some path has it, else none |
| App.GroupedDownloadUnreadable | app.py:129-134 | the grouped download line "a,1,2" is rejected by the reader |
| App.SelectedSection | app.py:259 | the key passed to the tool is a prefix of the chosen option |
| App.BeforeFirstOfKey | app.py:259 | the text before the first " - " of `key - name` is the key when the key has no '-' |
| App.SectionKeysRoundTrip | app.py:240-259 | every selector option maps back to its section key |
| App.UiWarning | app.py:293-300 | the form warns iff a field its section requires is empty, and each warning exactly when its own field is missing for its sections |
| App.ToolInputs | app.py:262-310 | the tool gets the section and the example as given, each field the section shows as typed, and every other field empty |
| App.FormChecksCoverTool | app.py:293-313 | when the form checks pass the section tool does not refuse; it is stricter only for 1.1/1.7 without synthesis |
| Llm.QuotedNameIsReadName | workdraftingtool.py:57-67 | the key error names the variable actually read iff the provider is "xai" or "openai" (any case) |
| Text.Words | fileprocessingtool.py:88 | `split()` gives non-empty words without whitespace |
| Text.SplitJoin | app.py:180 | splitting a separator-joined list without separators gives the list back |
| Text.SplitCount | app.py:180 | `split(c)` gives one more part than c occurs |
| Text.ParseIntDigits | app.py:184 | `int` of an all-digit string is its decimal value |
| Text.DigitsValueOfNatToString | guessstrategytool.py:238 | `str` of a number reads back as that number |

## Left out

- **I/O is not modelled:**
  - logging and console output;
  - the writes of `works_output.txt`, `chunks_to_draft.txt` and `structured_synthesis.txt`;
  - temporary directories;
  - the Streamlit widgets.

  The written selection text is modelled as a value.
- **Text extraction** (`_extract_text`, fileprocessingtool.py:41-80) depends on PDF, Word, Excel and PowerPoint libraries. It is a parameter from path to text.
- **Remote model and search calls** are parameters. The prompt wording is left out beyond the fields each prompt embeds and the literal texts that a property depends on. The section 1.2 template is the exception: its literals are written out.
- Sections.IntendedPromptNamesSolution: takes as a hypothesis that the fixed wording of draftingtool.py:88-100 holds no brace. That is true of the source text, but the verifier cannot read the characters of long literals cheaply.
- **Exception texts** are opaque strings carried in the reply.
- **Python string operations** are approximated on ASCII:
  - `isspace`, `strip` and `split()` treat only ASCII whitespace as space (space, tab, newline, return, vertical tab, form feed and U+001C..U+001F), not U+0085, U+00A0 or the other Unicode spaces;
  - `lower` and `upper` touch only ASCII letters;
  - `isdigit` accepts only ASCII digits;
  - `\w` is ASCII letters, digits and '_'.
- **A missing `example_text`** (None) is modelled as the empty string, which the source treats the same way.
- **Four modules** are not part of this model: searchtool.py, marketstudytool.py, innovationanalysistool.py and synthesis_tool.py. They only build a prompt and forward it.
- **The strategy-results display at app.py:129-134** calls `.items()` on the list the strategy tool returns. Only its download line format is modelled, as a finding.
- **The app always passes "xai"** to the direct-drafting tool. The model still takes the provider as a parameter.
- **Repeated base names in the form** (widgets that collide in the app) are modelled as one field per base name.

## Findings

| source | as written | input that shows it | evidently intended | confidence | as-written member | corrected member |
|---|---|---|---|---|---|---|
| draftingtool.py:88-99 | lines 91, 95, 98 and 99 of the section 1.2 prompt lack the `f` prefix, so `{solution_name}` stays literal | section "1.2" with solution "X": the prompt says `{solution_name}` where it should say "X" | every mention names the solution | not executed | Sections.MarketTemplateShowsPlaceholder | Sections.IntendedPromptNamesSolution |
| app.py:203-209 | the "Tout rédiger" comprehension reads `chunk["source"]` of every entry, and error entries have none, which raises KeyError | a checked file whose path is missing or whose text is empty (an uploaded .ppt or .txt, which the extractor does not read) | the file contributes no id, and an ok file contributes 1..its chunk count | not executed | App.MissingFileFailsCollection | App.AllPartsOfOneFile |
| app.py:129-134 | the download joins all parts of a file on one line, `name,p1,p2`, which the reader at app.py:180 rejects | a selection of parts 1 and 2 of file "a": the line "a,1,2" fails the two-field unpacking (latent: reached only once the `.items()` call at line 129, which raises on the list the strategy tool returns, is fixed) | the download is readable by the app, one `name,part` line per pair, as guessstrategytool.py:236-238 writes | not executed | App.GroupedDownloadUnreadable | App.SelectionRoundTrip |
