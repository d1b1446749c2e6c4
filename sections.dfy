/**
 * The report-section drafting tool: a fixed table of checks decides, from
 * the section id and the fields given, either the error text returned at
 * once or the prompt sent to the model. Section 1.6 also looks the company
 * up on the web first.
 */
module Sections {
  import opened Wrappers
  import opened Text
  import opened Llm

  /** The section ids the tool knows, "general" being the free mode that imitates an example. */
  const General: string := "general"
  const KnownSections: seq<string> := [General, "1.1", "1.2", "1.3", "1.5", "1.6", "1.7"]

  /** The tool's arguments; an absent example is the empty string, which the tool treats alike. */
  datatype Inputs = Inputs(content: string, synthesis: string, section: string, solution: string,
                           company: string, example: string)

  // ---------------------------------------------------------------------
  // Error texts
  // ---------------------------------------------------------------------

  function KeyError(provider: string): string {
    "Erreur : Clé API pour " + QuotedKeyVariable(provider) + " non définie dans les variables d'environnement"
  }

  const CompanyRequired: string := "Erreur : Nom de l'entreprise requis pour la section 1.6."
  const ExampleRequired: string := "Erreur : Un exemple de rédaction est requis pour le mode général."
  const UnknownSection: string :=
    "Erreur : Section non reconnue. Utilisez 'general', '1.1', '1.2', '1.3', '1.5', '1.6' ou '1.7'."

  function SolutionRequired(section: string): string {
    "Erreur : Nom de la solution requis pour la section " + section + "."
  }

  function DraftingFailed(message: string): string {
    "Erreur lors de la rédaction : " + message
  }

  // ---------------------------------------------------------------------
  // The web look-up of section 1.6
  // ---------------------------------------------------------------------

  /** The query sent to the search tool for the company. */
  function CompanyQuery(company: string): string {
    "presentation of the company " + company + " including history, values, projects, and solutions"
  }

  const NoCompanyData: string := "Aucune donnée " + "disponible sur " + "l'entreprise."

  /** The markers by which a search result is taken for a failure. */
  predicate Marked(raw: string) {
    Contains(raw, "Erreur") || Contains(raw, "Aucun résultat")
  }

  /** The page data the prompt shows: the search result, or the placeholder when it looks like a failure. */
  function WebData(raw: string): string {
    if Marked(raw) then NoCompanyData else raw
  }

  lemma PlaceholderHasNoCapitalE()
    ensures 'E' !in NoCompanyData
  {
    assert 'E' !in "Aucune donnée " && 'E' !in "disponible sur " && 'E' !in "l'entreprise.";
  }

  lemma PlaceholderHasNoA()
    ensures 'a' !in NoCompanyData
  {
    assert 'a' !in "Aucune donnée " && 'a' !in "disponible sur " && 'a' !in "l'entreprise.";
  }

  lemma PlaceholderUnmarked()
    ensures !Marked(NoCompanyData)
  {
    PlaceholderHasNoCapitalE();
    AbsentCharNotContained(NoCompanyData, "Erreur", 0);
    PlaceholderHasNoA();
    assert "Aucun résultat"[12] == 'a';
    AbsentCharNotContained(NoCompanyData, "Aucun résultat", 12);
  }

  /** The result is kept exactly when it carries no failure marker, and what the prompt shows never does. */
  lemma WebDataUnmarked(raw: string)
    ensures WebData(raw) == raw <==> !Marked(raw)
    ensures !Marked(WebData(raw))
  {
    PlaceholderUnmarked();
  }

  // ---------------------------------------------------------------------
  // The prompt
  // ---------------------------------------------------------------------

  const Intro: string := "Vous êtes un rédacteur professionnel spécialisé dans les rapports stratégiques."
  const SectionOpening: string := " Rédigez la section "
  const ExampleOpening: string := " Adaptez le style, " + "la structure et le ton de l'exemple suivant : \n"
  const ExampleClosing: string :=
    "Assurez-vous que le texte rédigé respecte ces caractéristiques tout en suivant les instructions spécifiques ci-dessous."

  function SectionLine(section: string): string {
    SectionOpening + section + " d'un rapport."
  }

  function ExampleBlock(example: string): string {
    ExampleOpening + example + "\n\n" + ExampleClosing
  }

  /** `base_prompt` after its two optional additions. */
  function BasePrompt(section: string, example: string): string {
    Intro + (if section != General then SectionLine(section) else "") + (if example != "" then ExampleBlock(example) else "")
  }

  /** `a + b + c` starts with `a + b` and with `a + b[..k]`. */
  lemma PrefixOfConcat(a: string, b: string, c: string, k: nat)
    requires k <= |b|
    ensures StartsWith(a + b + c, a + b)
    ensures StartsWith(a + b + c, a + b[..k])
  {
    var s := a + b + c;
    assert s[..|a + b|] == a + b;
    assert s[..|a| + k] == a + b[..k];
  }

  /** With a section line the prompt opens with it. */
  lemma PromptWithSectionNames(section: string, example: string)
    requires section != General
    ensures StartsWith(BasePrompt(section, example), Intro + SectionOpening)
    ensures StartsWith(BasePrompt(section, example), Intro + SectionLine(section))
  {
    var line := SectionLine(section);
    var rest := if example != "" then ExampleBlock(example) else "";
    assert BasePrompt(section, example) == Intro + line + rest;
    assert line[..|SectionOpening|] == SectionOpening;
    PrefixOfConcat(Intro, line, rest, |SectionOpening|);
  }

  /** For "general" with an example, the text after the introduction starts " A", not " R". */
  lemma GeneralWithExampleUnnamed(example: string)
    requires example != ""
    ensures !StartsWith(BasePrompt(General, example), Intro + SectionOpening)
  {
    var p := BasePrompt(General, example);
    var head := Intro + SectionOpening;
    var block := ExampleBlock(example);
    assert p == Intro + block;
    assert block[1] == ExampleOpening[1] == 'A';
    assert p[|Intro| + 1] == block[1];
    assert head[|Intro| + 1] == SectionOpening[1] == 'R';
  }

  /** For "general" the prompt does not name a section. */
  lemma GeneralPromptUnnamed(example: string)
    ensures !StartsWith(BasePrompt(General, example), Intro + SectionOpening)
  {
    if example != "" {
      GeneralWithExampleUnnamed(example);
    } else {
      assert BasePrompt(General, example) == Intro;
    }
  }

  /** The base prompt names the section exactly when it is not "general". */
  lemma BasePromptNamesSection(section: string, example: string)
    ensures StartsWith(BasePrompt(section, example), Intro + SectionOpening) <==> section != General
    ensures section != General ==> StartsWith(BasePrompt(section, example), Intro + SectionLine(section))
  {
    if section != General {
      PromptWithSectionNames(section, example);
    } else {
      GeneralPromptUnnamed(example);
    }
  }

  /** Without an example the prompt ends in "ques." or "port.", while the closing sentence ends in "ous.". */
  lemma PromptWithoutExampleMisses(section: string)
    ensures !EndsWith(BasePrompt(section, ""), ExampleClosing)
  {
    var p := BasePrompt(section, "");
    var k := |ExampleClosing| - 3;
    assert ExampleClosing[k] == 'u';
    if section != General {
      var line := SectionLine(section);
      assert p == Intro + line;
      assert line[|line| - 3] == 'r';
      assert p[|p| - 3] == 'r';
    } else {
      assert p == Intro;
      assert p[|p| - 3] == 'e';
    }
  }

  /** A text followed by a block `opening + example + "\n\n" + closing` ends with `closing` and holds `example`. */
  lemma BlockEndsAndHolds(front: string, opening: string, example: string, closing: string)
    ensures EndsWith(front + (opening + example + "\n\n" + closing), closing)
    ensures Contains(front + (opening + example + "\n\n" + closing), example)
  {
    var p := front + (opening + example + "\n\n" + closing);
    var tail := "\n\n" + closing;
    assert p == (front + opening) + example + tail;
    assert p[|p| - |closing|..] == closing;
    ContainsAt(front + opening, example, tail);
  }

  /** With an example the prompt ends with the closing sentence and holds the example. */
  lemma PromptWithExampleShows(section: string, example: string)
    requires example != ""
    ensures EndsWith(BasePrompt(section, example), ExampleClosing)
    ensures Contains(BasePrompt(section, example), example)
  {
    var front := Intro + (if section != General then SectionLine(section) else "");
    assert BasePrompt(section, example) == front + ExampleBlock(example);
    BlockEndsAndHolds(front, ExampleOpening, example, ExampleClosing);
  }

  /** The base prompt shows the example block exactly when an example is given, and it then holds the example. */
  lemma BasePromptShowsExample(section: string, example: string)
    ensures EndsWith(BasePrompt(section, example), ExampleClosing) <==> example != ""
    ensures example != "" ==> Contains(BasePrompt(section, example), example)
  {
    if example != "" {
      PromptWithExampleShows(section, example);
    } else {
      PromptWithoutExampleMisses(section);
    }
  }

  // ---------------------------------------------------------------------
  // The section 1.2 template
  // ---------------------------------------------------------------------

  /** The fields the 1.2 template refers to. */
  datatype Field = SolutionName | ContentToDraft

  /**
   * One string literal of the 1.2 template: fixed wording around at most
   * one `{field}` placeholder. An f-string (`interpolated`) replaces the
   * placeholder by the field's value; a plain string shows it as written.
   */
  datatype TemplateLine = TemplateLine(interpolated: bool, before: string, slot: Option<Field>, after: string)

  function Placeholder(f: Field): string {
    match f
    case SolutionName => "{solution_name}"
    case ContentToDraft => "{content_to_draft}"
  }

  /** What the placeholder of a line turns into: the field's value, or the placeholder itself. */
  function Shown(l: TemplateLine, solution: string, content: string): string {
    match l.slot
    case None => ""
    case Some(f) =>
      if !l.interpolated then Placeholder(f)
      else if f == SolutionName then solution else content
  }

  function LineText(l: TemplateLine, solution: string, content: string): string {
    l.before + Shown(l, solution, content) + l.after
  }

  /** The literals of a template, concatenated as Python does with adjacent strings. */
  function Render(t: seq<TemplateLine>, solution: string, content: string): string
    decreases |t|
  {
    if t == [] then "" else LineText(t[0], solution, content) + Render(t[1..], solution, content)
  }

  /**
   * The section 1.2 template after `f"{base_prompt} "` (lines 88-100), as
   * written: the literals of lines 91, 95, 98 and 99 have no `f` prefix.
   */
  const MarketTemplate: seq<TemplateLine> := MarketRequest + MarketOutline

  /** Lines 88-93: what to write, and the competitor data. */
  const MarketRequest: seq<TemplateLine> := [Line088, Line089, Line090, Line091, Line092, Line093]

  /** Lines 94-100: the structure the text must follow. */
  const MarketOutline: seq<TemplateLine> := [Line094, Line095, Line096, Line097, Line098, Line099, Line100]

  const Line088 := TemplateLine(true, "Rédigez une étude de marché pour la solution ", Some(SolutionName), ". ")
  const Line089 := TemplateLine(false, "Présentez 4 solutions concurrentes sur le marché (de préférence français). ", None, "")
  const Line090 := TemplateLine(false, "Pour chaque solution, décrivez sur plusieurs lignes : le besoin qu'elle adresse, "
                                       + "ses fonctionnalités principales, ", None, "")
  const Line091 := TemplateLine(false, "et montrez en quoi elle est inférieure à ", Some(SolutionName), ". ")
  const Line092 := TemplateLine(true, "Concluez en présentant ", Some(SolutionName),
                                " comme une solution innovante qui comble ces lacunes. ")
  const Line093 := TemplateLine(true, "Voici les informations sur les concurrents (sortie de MarketStudyTool) : \n",
                                Some(ContentToDraft), "\n\n")
  const Line094 := TemplateLine(false, "Structurez le texte comme suit : \n", None, "")
  const Line095 := TemplateLine(false, "- Introduction : Indiquez qu'il n'existe pas de solution identique à ",
                                Some(SolutionName), ", mais mentionnez des références pertinentes.\n")
  const Line096 := TemplateLine(false, "- Pour chaque concurrent (4 au total) :\n", None, "")
  const Line097 := TemplateLine(false, "  - [Nom de la solution] : [Description, besoin adressé, fonctionnalités principales].\n",
                                None, "")
  const Line098 := TemplateLine(false, "  - Infériorité par rapport à ", Some(SolutionName), " : [Explication].\n")
  const Line099 := TemplateLine(false, "- Conclusion : Présentez ", Some(SolutionName),
                                " comme innovante, en expliquant comment elle surpasse les concurrents.\n")
  const Line100 := TemplateLine(false, "Retourne uniquement le texte rédigé, sans commentaire ni introduction.", None, "")

  /** The evidently intended template: every literal is an f-string. */
  function Corrected(t: seq<TemplateLine>): (r: seq<TemplateLine>)
    ensures |r| == |t|
    ensures forall k :: 0 <= k < |t| ==> r[k] == t[k].(interpolated := true)
  {
    seq(|t|, k requires 0 <= k < |t| => t[k].(interpolated := true))
  }

  /** The text of the section 1.2 body `Market(solution, content)`, as the tool builds it. */
  function MarketPrompt(solution: string, content: string): string {
    Render(MarketTemplate, solution, content)
  }

  /** The text of that body as evidently intended. */
  function MarketPromptIntended(solution: string, content: string): string {
    Render(Corrected(MarketTemplate), solution, content)
  }

  /** Every line's text, and so whatever its placeholder shows, is part of the rendered template. */
  lemma {:induction false} RenderHoldsLine(t: seq<TemplateLine>, solution: string, content: string, k: nat)
    requires k < |t|
    ensures Contains(Render(t, solution, content), LineText(t[k], solution, content))
    ensures Contains(Render(t, solution, content), Shown(t[k], solution, content))
    decreases k
  {
    var l := t[k];
    var line := LineText(l, solution, content);
    var r := Render(t, solution, content);
    var rest := Render(t[1..], solution, content);
    assert r == LineText(t[0], solution, content) + rest;
    if k == 0 {
      ContainsAt("", line, rest);
      assert r == "" + line + rest;
    } else {
      RenderHoldsLine(t[1..], solution, content, k - 1);
      assert t[1..][k - 1] == l;
      ContainsWithin(LineText(t[0], solution, content), rest, "", line);
      assert r == LineText(t[0], solution, content) + rest + "";
    }
    ContainsAt(l.before, Shown(l, solution, content), l.after);
    ContainsTransitive(r, line, Shown(l, solution, content));
  }

  predicate BraceFree(s: string) {
    '{' !in s
  }

  /** A template all of whose literals are f-strings shows no brace unless its wording or a field holds one. */
  lemma {:induction false} InterpolatedBraceFree(t: seq<TemplateLine>, solution: string, content: string)
    requires forall k :: 0 <= k < |t| ==> t[k].interpolated && BraceFree(t[k].before) && BraceFree(t[k].after)
    requires BraceFree(solution) && BraceFree(content)
    ensures BraceFree(Render(t, solution, content))
    decreases |t|
  {
    if t != [] {
      InterpolatedBraceFree(t[1..], solution, content);
      assert BraceFree(LineText(t[0], solution, content));
    }
  }

  /**
   * As written, lines 88 and 92 name the solution, while the literals of
   * lines 91, 95, 98 and 99 show the placeholder itself.
   */
  lemma MarketMentionsAsWritten(solution: string, content: string)
    ensures Shown(MarketTemplate[0], solution, content) == solution
    ensures Shown(MarketTemplate[4], solution, content) == solution
    ensures Shown(MarketTemplate[3], solution, content) == Placeholder(SolutionName)
    ensures Shown(MarketTemplate[7], solution, content) == Placeholder(SolutionName)
    ensures Shown(MarketTemplate[10], solution, content) == Placeholder(SolutionName)
    ensures Shown(MarketTemplate[11], solution, content) == Placeholder(SolutionName)
  {
  }

  /** So the prompt the tool sends contains `{solution_name}`, whatever the solution is. */
  lemma MarketTemplateShowsPlaceholder(solution: string, content: string)
    ensures Contains(MarketPrompt(solution, content), Placeholder(SolutionName))
  {
    RenderHoldsLine(MarketTemplate, solution, content, 3);
  }

  /** It still names the solution (line 88) and holds the competitor data (line 93). */
  lemma MarketPromptHoldsFields(solution: string, content: string)
    ensures Contains(MarketPrompt(solution, content), solution)
    ensures Contains(MarketPrompt(solution, content), content)
  {
    RenderHoldsLine(MarketTemplate, solution, content, 0);
    RenderHoldsLine(MarketTemplate, solution, content, 5);
  }

  /** In the corrected template every placeholder of the solution names it, in every line. */
  lemma IntendedMentionsNameSolution(t: seq<TemplateLine>, solution: string, content: string)
    ensures forall k :: 0 <= k < |t| && t[k].slot == Some(SolutionName) ==>
              Shown(Corrected(t)[k], solution, content) == solution
    ensures forall k :: 0 <= k < |t| && t[k].slot == Some(ContentToDraft) ==>
              Shown(Corrected(t)[k], solution, content) == content
  {
  }

  /** The intended 1.2 prompt holds the solution and the competitor data. */
  lemma IntendedPromptHoldsFields(solution: string, content: string)
    ensures Contains(MarketPromptIntended(solution, content), solution)
    ensures Contains(MarketPromptIntended(solution, content), content)
  {
    var t := Corrected(MarketTemplate);
    RenderHoldsLine(t, solution, content, 0);
    RenderHoldsLine(t, solution, content, 5);
  }

  /**
   * And it holds no `{solution_name}` when neither the fixed wording nor
   * the fields bring a brace.
   */
  lemma IntendedPromptNamesSolution(solution: string, content: string)
    requires forall k :: 0 <= k < |MarketTemplate| ==>
               BraceFree(MarketTemplate[k].before) && BraceFree(MarketTemplate[k].after)
    requires BraceFree(solution) && BraceFree(content)
    ensures !Contains(MarketPromptIntended(solution, content), Placeholder(SolutionName))
  {
    InterpolatedBraceFree(Corrected(MarketTemplate), solution, content);
    AbsentCharNotContained(MarketPromptIntended(solution, content), Placeholder(SolutionName), 0);
  }

  /** The section-specific part of the prompt: which fields each section embeds. */
  datatype Body =
    | Styled(content: string)
    | Context(synthesis: string, content: string)
    | Market(solution: string, content: string)
    | Innovation(solution: string, content: string)
    | Conclusion(content: string)
    | Company(company: string, webData: string)
    | Activities(synthesis: string, content: string)

  datatype Prompt = Prompt(base: string, body: Body)

  /** What the checks decide before any model call: an error text, or the prompt to send. */
  datatype Dispatch = Refused(error: string) | Prompted(prompt: Prompt)

  /** The section checks and the prompt choice of lines 40-144, given the search tool. */
  function Decide(i: Inputs, search: string -> string): (r: Dispatch)
    ensures r.Prompted? ==> r.prompt.base == BasePrompt(i.section, i.example)
  {
    if i.section == "1.6" && i.company == "" then Refused(CompanyRequired)
    else
      var web := if i.section == "1.6" then WebData(search(CompanyQuery(i.company))) else "";
      var base := BasePrompt(i.section, i.example);
      if i.section == General then
        if i.example == "" then Refused(ExampleRequired) else Prompted(Prompt(base, Styled(i.content)))
      else if i.section == "1.1" then Prompted(Prompt(base, Context(i.synthesis, i.content)))
      else if i.section == "1.2" then
        if i.solution == "" then Refused(SolutionRequired("1.2"))
        else Prompted(Prompt(base, Market(i.solution, i.content)))
      else if i.section == "1.3" then
        if i.solution == "" then Refused(SolutionRequired("1.3"))
        else Prompted(Prompt(base, Innovation(i.solution, i.content)))
      else if i.section == "1.5" then Prompted(Prompt(base, Conclusion(i.content)))
      else if i.section == "1.6" then Prompted(Prompt(base, Company(i.company, web)))
      else if i.section == "1.7" then Prompted(Prompt(base, Activities(i.synthesis, i.content)))
      else Refused(UnknownSection)
  }

  /** `DraftingTool._run`: the key check first, then the section checks, then the call. */
  function DraftSection(provider: string, env: map<string, string>, i: Inputs, search: string -> string,
                        ask: Prompt -> Reply): string
  {
    if !HasApiKey(env, provider) then KeyError(provider)
    else match Decide(i, search)
      case Refused(e) => e
      case Prompted(p) =>
        match ask(p)
        case Answer(t) => Strip(t)
        case Raised(m) => DraftingFailed(m)
  }

  // ---------------------------------------------------------------------
  // Properties
  // ---------------------------------------------------------------------

  /** The condition under which the tool refuses, and the text it gives, case by case. */
  function Refusal(i: Inputs): Option<string> {
    if i.section == "1.6" && i.company == "" then Some(CompanyRequired)
    else if i.section == General && i.example == "" then Some(ExampleRequired)
    else if (i.section == "1.2" || i.section == "1.3") && i.solution == "" then Some(SolutionRequired(i.section))
    else if i.section !in KnownSections then Some(UnknownSection)
    else None
  }

  /** The checks for section 1.6: a company name is required. */
  lemma RefusalOfCompany(i: Inputs, search: string -> string)
    requires i.section == "1.6"
    ensures Decide(i, search).Refused? <==> i.company == ""
    ensures Refusal(i) == if i.company == "" then Some(CompanyRequired) else None
  {
  }

  /** The checks for sections 1.2 and 1.3: a solution name is required. */
  lemma RefusalOfSolution(i: Inputs, search: string -> string)
    requires i.section == "1.2" || i.section == "1.3"
    ensures Decide(i, search).Refused? <==> i.solution == ""
    ensures Decide(i, search).Refused? ==> Decide(i, search).error == SolutionRequired(i.section)
    ensures Refusal(i) == if i.solution == "" then Some(SolutionRequired(i.section)) else None
  {
    assert i.section in KnownSections;
  }

  /** Sections 1.1, 1.5 and 1.7 check nothing. */
  lemma RefusalOfPlain(i: Inputs, search: string -> string)
    requires i.section == "1.1" || i.section == "1.5" || i.section == "1.7"
    ensures Decide(i, search).Prompted? && Refusal(i).None?
  {
    if i.section == "1.1" {
      assert KnownSections[1] == "1.1";
    } else if i.section == "1.5" {
      assert KnownSections[4] == "1.5";
    } else {
      assert KnownSections[6] == "1.7";
    }
  }

  /** Any other section is refused as unknown. */
  lemma RefusalOfUnknown(i: Inputs, search: string -> string)
    requires i.section !in KnownSections
    ensures Decide(i, search) == Refused(UnknownSection) && Refusal(i) == Some(UnknownSection)
  {
    assert i.section != "1.6" && i.section != General && i.section != "1.1" && i.section != "1.2";
    assert i.section != "1.3" && i.section != "1.5" && i.section != "1.7";
  }

  /**
   * The validation table: the tool refuses exactly in the four cases of
   * `Refusal`, with that text; in particular 1.1 and 1.7 never refuse,
   * whatever the synthesis.
   */
  lemma RefusalTable(i: Inputs, search: string -> string)
    ensures Decide(i, search).Refused? <==> Refusal(i).Some?
    ensures Decide(i, search).Refused? ==> Decide(i, search).error == Refusal(i).value
  {
    var s := i.section;
    if s == "1.6" {
      RefusalOfCompany(i, search);
    } else if s == General {
    } else if s == "1.1" || s == "1.5" || s == "1.7" {
      RefusalOfPlain(i, search);
    } else if s == "1.2" || s == "1.3" {
      RefusalOfSolution(i, search);
    } else {
      assert s !in KnownSections;
      RefusalOfUnknown(i, search);
    }
  }

  /**
   * When the tool prompts, the prompt starts from the base prompt of the
   * section and the example, and embeds the fields its section names; for
   * 1.6 that is the company and the screened search result.
   */
  lemma PromptEmbedsFields(i: Inputs, search: string -> string)
    requires Decide(i, search).Prompted?
    ensures var p := Decide(i, search).prompt;
            && p.base == BasePrompt(i.section, i.example)
            && (p.body.Styled? <==> i.section == General)
            && (p.body.Styled? ==> p.body == Styled(i.content))
            && (p.body.Company? ==> i.section == "1.6" && i.company != "")
            && (p.body.Company? ==> p.body == Company(i.company, WebData(search(CompanyQuery(i.company)))))
            && (p.body.Market? ==> i.section == "1.2" && p.body == Market(i.solution, i.content) && i.solution != "")
            && (p.body.Innovation? ==> i.section == "1.3" && p.body == Innovation(i.solution, i.content) && i.solution != "")
            && (p.body.Context? ==> i.section == "1.1" && p.body == Context(i.synthesis, i.content))
            && (p.body.Activities? ==> i.section == "1.7" && p.body == Activities(i.synthesis, i.content))
            && (p.body.Conclusion? ==> i.section == "1.5" && p.body == Conclusion(i.content))
  {
  }

  /**
   * The prompt the tool builds for section 1.2 with a solution name: its
   * body is the as-written template, which shows `{solution_name}`.
   */
  lemma DecidedMarketPrompt(i: Inputs, search: string -> string)
    requires i.section == "1.2" && i.solution != ""
    ensures Decide(i, search) == Prompted(Prompt(BasePrompt("1.2", i.example), Market(i.solution, i.content)))
    ensures Contains(MarketPrompt(i.solution, i.content), Placeholder(SolutionName))
  {
    MarketTemplateShowsPlaceholder(i.solution, i.content);
  }

  /** The search tool matters only for 1.6 with a company name: otherwise it is never consulted. */
  lemma SearchOnlyForCompany(i: Inputs, s1: string -> string, s2: string -> string)
    requires i.section != "1.6" || i.company == ""
    ensures Decide(i, s1) == Decide(i, s2)
  {
  }

  /** A missing key is reported before any section check, search or call. */
  lemma KeyCheckedFirst(provider: string, env: map<string, string>, i: Inputs, search: string -> string,
                        ask: Prompt -> Reply)
    requires !HasApiKey(env, provider)
    ensures DraftSection(provider, env, i, search, ask) == KeyError(provider)
  {
  }

  /** With a key, a refusal is returned as is, and otherwise the stripped draft or the failure text. */
  lemma DraftOutcome(provider: string, env: map<string, string>, i: Inputs, search: string -> string,
                     ask: Prompt -> Reply)
    requires HasApiKey(env, provider)
    ensures Refusal(i).Some? ==> DraftSection(provider, env, i, search, ask) == Refusal(i).value
    ensures Refusal(i).None? ==>
              var p := Decide(i, search).prompt;
              DraftSection(provider, env, i, search, ask) ==
                match ask(p) case Answer(t) => Strip(t) case Raised(m) => DraftingFailed(m)
  {
    RefusalTable(i, search);
  }
}
