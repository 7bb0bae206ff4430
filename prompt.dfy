/**
 * The instruction text sent to the model (services/geminiService.ts): a fixed
 * template whose slots are filled from the form. The text is modelled as a
 * sequence of pieces, alternating template fragments and field values; the
 * prompt is their concatenation.
 */
module Prompt {
  import opened Wrappers
  import opened Types
  import Js

  // ---------------------------------------------------------------------------
  // Template fragments, in the order they occur
  // ---------------------------------------------------------------------------

  const Intro: string :=
    "\n" +
    "    SZEREPKÖR:\n" +
    "    Te egy 2026-os szintű Senior HR Technológus és ATS Optimalizálási Szakértő vagy. \n" +
    "    Feladatod olyan pályázati anyagok írása magyar nyelven, amelyek átmennek az AI-alapú szűrőrendszereken (Bot-friendly), de emberi olvasó számára is megnyerőek.\n" +
    "\n" +
    "    BEMENETI PARAMÉTEREK:"
  const JdLabel: string := "\n    - JD_DATA (álláshirdetés): "
  const CompanyLabel: string := "\n    - COMPANY: "
  const PositionLabel: string := "\n    - POSITION: "
  const SalaryLabel: string := "\n    - SALARY: "
  const StyleLabel: string := "\n    - STYLE: "
  const ToneLabel: string := "\n    - TONE (Hangnem): "
  const LlmLabel: string := "\n    - AI_SKILLS (1-5 skálán):\n      Szöveges LLM: "
  const PromptingLabel: string := ", \n      Prompt Engineering: "
  const VisualAILabel: string := ", \n      Vizuális AI: "
  const AutomationLabel: string := ", \n      Automatizálás: "
  const AnalysisLabel: string := ", \n      Adatelemzés: "
  const CvLead: string := "\n\n    "
  const Strategy: string :=
    "\n" +
    "\n" +
    "    STRATÉGIA ÉS ADATELLENŐRZÉS:\n" +
    "    1. ATS ÉS AI-BOT OPTIMALIZÁLÁS: Használd a JD_DATA kulcsszavait természetes módon.\n" +
    "    2. CV INTEGRITÁS ELLENŐRZÉSE: Kiemelten figyelj a kinyert adatok pontosságára.\n" +
    "    3. SKILL ALIGNMENT: Számítsd ki az illeszkedést (0-100).\n" +
    "    4. HANGNEM DIFFERENCIÁLÁS: \n" +
    "       - Az emailTemplate kövesse a választott hangnemet ("
  const Closing: string :=
    ").\n" +
    "       - A coverLetter (Motivációs Levél) azonban minden esetben legyen hivatalosabb (magázó), még akkor is, ha az email tegező, mert ez a 2026-os professzionális standard.\n" +
    "    5. KIEMELÉS: A kimeneti szövegekben (emailTemplate, coverLetter, cvAnalysisReport) a legfontosabb adatpontokat, kulcsszavakat és elemzési eredményeket emeld ki félkövérrel (Markdown **szöveg** formátumban).\n" +
    "\n" +
    "    KIMENETI ELVÁRÁSOK:\n" +
    "    - subject: RÖVID, de rendkívül figyelemfelkeltő, motiváló és kattintásvadász tárgy.\n" +
    "    - emailTemplate: RÉSZLETES (min. 1000 karakter), meggyőző üzenet félkövér kiemelésekkel.\n" +
    "    - coverLetter: Professzionális dokumentum, modern struktúra, félkövér kiemelésekkel.\n" +
    "    - salaryNote: Elegánsan beépített bérigény.\n" +
    "    - cvAnalysisReport: Részletes elemzés a kinyert adatokról, logikai hibákról, félkövérrel kiemelve a kritikus pontokat.\n" +
    "    - skillAlignment: 5 darab objektumot tartalmazó tömb (label, score).\n" +
    "\n" +
    "    Válaszolj JSON formátumban.\n" +
    "  "

  /** What the salary slot holds when no salary was entered. */
  const NotGiven: string := "Nincs megadva"
  /** The CV section when a document is attached. */
  const AttachmentNote: string :=
    "MEGJEGYZÉS: A pályázó önéletrajzát csatolt dokumentumként (PDF/Word) küldtük el. Kérlek, elemezd azt alaposan."
  /** The label in front of the pasted CV text. */
  const CvDataLabel: string := "- CV_DATA (kinyert szöveg): "

  // ---------------------------------------------------------------------------
  // Slots
  // ---------------------------------------------------------------------------

  /** `data.salary || 'Nincs megadva'`. */
  function SalaryText(d: ApplicationData): string {
    Js.OrElse(d.salary, NotGiven)
  }

  /** A rating as the template literal renders the number. */
  function LevelText(l: Level): string {
    Js.NatToString(l)
  }

  /**
   * The four long blocks of the template that hold no slot. The properties
   * below are proved for any content of these blocks, so they hold for the
   * actual text whatever it says.
   */
  datatype Blocks = Blocks(intro: string, strategy: string, closing: string, attachmentNote: string)

  const TemplateBlocks: Blocks := Blocks(Intro, Strategy, Closing, AttachmentNote)

  /** The attachment note when a file is attached, the labelled CV text otherwise. */
  function CvSection(b: Blocks, d: ApplicationData): string {
    if d.cvFile.Some? then b.attachmentNote else CvDataLabel + d.cvData
  }

  /** The number of pieces the template consists of. */
  const PieceCount: nat := 28

  /**
   * Piece `k` of the prompt: the opening fragment at 0 and template fragments
   * at the odd positions; the slot values at the even positions 2 to 26.
   */
  function Piece(b: Blocks, d: ApplicationData, k: nat): string {
    match k
    case 0 => b.intro
    case 1 => JdLabel
    case 2 => d.jdData
    case 3 => CompanyLabel
    case 4 => d.company
    case 5 => PositionLabel
    case 6 => d.position
    case 7 => SalaryLabel
    case 8 => SalaryText(d)
    case 9 => StyleLabel
    case 10 => StyleValue(d.style)
    case 11 => ToneLabel
    case 12 => ToneValue(d.tone)
    case 13 => LlmLabel
    case 14 => LevelText(d.aiSkills.llm)
    case 15 => PromptingLabel
    case 16 => LevelText(d.aiSkills.prompting)
    case 17 => VisualAILabel
    case 18 => LevelText(d.aiSkills.visualAI)
    case 19 => AutomationLabel
    case 20 => LevelText(d.aiSkills.automation)
    case 21 => AnalysisLabel
    case 22 => LevelText(d.aiSkills.analysis)
    case 23 => CvLead
    case 24 => CvSection(b, d)
    case 25 => b.strategy
    case 26 => ToneValue(d.tone)
    case 27 => b.closing
    case _ => ""
  }

  /** The prompt's pieces in order. */
  function Pieces(b: Blocks, d: ApplicationData): seq<string> {
    seq(PieceCount, k requires 0 <= k < PieceCount => Piece(b, d, k))
  }

  /** The template filled from the form, with the given blocks. */
  function PromptWith(b: Blocks, d: ApplicationData): string {
    Js.Concat(Pieces(b, d))
  }

  /**
   * The instruction text `generateHRMaterials` sends. Without a file it
   * carries the labelled CV text; with a file it does not depend on the CV
   * text at all.
   */
  function PromptText(d: ApplicationData): (r: string)
    ensures d.cvFile.None? ==> Occurs(CvDataLabel + d.cvData, r)
    ensures d.cvFile.Some? ==> forall x: string :: PromptWith(TemplateBlocks, d.(cvData := x)) == r
  {
    if d.cvFile.None? then PromptCarriesCvText(TemplateBlocks, d); PromptWith(TemplateBlocks, d)
    else PromptNotesAttachment(TemplateBlocks, d); PromptWith(TemplateBlocks, d)
  }

  /** The filled template opens with the intro block and ends with the closing block. */
  lemma PromptFrame(b: Blocks, d: ApplicationData)
    ensures Js.StartsWith(PromptWith(b, d), b.intro) && Js.EndsWith(PromptWith(b, d), b.closing)
  {
    var ps := Pieces(b, d);
    var rest := Js.Concat(ps[1..]);
    assert ps[0] == b.intro;
    assert Js.Concat(ps) == b.intro + rest;
    assert (b.intro + rest)[..|b.intro|] == b.intro;
    var front, last := ps[..PieceCount - 1], ps[PieceCount - 1..];
    assert ps == front + last;
    Js.ConcatAppend(front, last);
    assert last == [b.closing] && last[1..] == [];
    assert Js.Concat(last) == b.closing + Js.Concat([]);
    var text := Js.Concat(front) + b.closing;
    assert text[|text| - |b.closing|..] == b.closing;
  }

  // ---------------------------------------------------------------------------
  // Occurrence of a text in the prompt
  // ---------------------------------------------------------------------------

  /** `part` occurs in `text` starting at index `k`. */
  predicate OccursAt(part: string, text: string, k: nat) {
    k + |part| <= |text| && text[k..k + |part|] == part
  }

  predicate Occurs(part: string, text: string) {
    exists k: nat | k <= |text| :: OccursAt(part, text, k)
  }

  /** Two adjacent pieces occur together in the concatenation, right after the pieces before them. */
  lemma AdjacentOccur(ps: seq<string>, i: nat)
    requires i + 1 < |ps|
    ensures OccursAt(ps[i] + ps[i + 1], Js.Concat(ps), |Js.Concat(ps[..i])|)
  {
    var pre, mid, post := ps[..i], ps[i..i + 2], ps[i + 2..];
    assert ps == pre + mid + post;
    Js.ConcatAppend(pre + mid, post);
    Js.ConcatAppend(pre, mid);
    assert mid == [ps[i]] + [ps[i + 1]];
    assert Js.Concat(mid) == ps[i] + ps[i + 1] by {
      assert mid[0] == ps[i] && mid[1..] == [ps[i + 1]];
      assert [ps[i + 1]][1..] == [];
      assert Js.Concat([ps[i + 1]]) == ps[i + 1] + Js.Concat([]);
    }
    var text := Js.Concat(ps);
    var k := |Js.Concat(pre)|;
    assert text == Js.Concat(pre) + (ps[i] + ps[i + 1]) + Js.Concat(post);
    assert text[k..k + |ps[i] + ps[i + 1]|] == ps[i] + ps[i + 1];
  }

  lemma AdjacentOccurs(ps: seq<string>, i: nat)
    requires i + 1 < |ps|
    ensures Occurs(ps[i] + ps[i + 1], Js.Concat(ps))
  {
    AdjacentOccur(ps, i);
  }

  /**
   * Replacing one piece by another of the same text length gives the same
   * concatenation only if the two pieces are equal.
   */
  lemma {:induction false} ConcatDeterminesPiece(ps: seq<string>, i: nat, x: string)
    requires i < |ps|
    requires Js.Concat(ps[i := x]) == Js.Concat(ps)
    ensures x == ps[i]
  {
    var qs := ps[i := x];
    var pre, post := ps[..i], ps[i + 1..];
    assert ps == pre + [ps[i]] + post;
    assert qs == pre + [x] + post;
    Js.ConcatAppend(pre + [ps[i]], post);
    Js.ConcatAppend(pre, [ps[i]]);
    Js.ConcatAppend(pre + [x], post);
    Js.ConcatAppend(pre, [x]);
    assert Js.Concat([ps[i]]) == ps[i] by { assert [ps[i]][1..] == []; }
    assert Js.Concat([x]) == x by { assert [x][1..] == []; }
    var a, b := Js.Concat(pre), Js.Concat(post);
    assert a + x + b == a + ps[i] + b;
    assert |x| == |ps[i]|;
    assert x == (a + x + b)[|a|..|a| + |x|];
  }

  // ---------------------------------------------------------------------------
  // What the prompt says
  // ---------------------------------------------------------------------------

  /** The job description, company and position are embedded behind their labels. */
  lemma PromptEmbedsJob(b: Blocks, d: ApplicationData)
    ensures Occurs(JdLabel + d.jdData, PromptWith(b, d))
    ensures Occurs(CompanyLabel + d.company, PromptWith(b, d))
    ensures Occurs(PositionLabel + d.position, PromptWith(b, d))
  {
    var ps, text := Pieces(b, d), PromptWith(b, d);
    assert Occurs(JdLabel + d.jdData, text) by {
      assert ps[1] == JdLabel && ps[2] == d.jdData;
      AdjacentOccurs(ps, 1);
    }
    assert Occurs(CompanyLabel + d.company, text) by {
      assert ps[3] == CompanyLabel && ps[4] == d.company;
      AdjacentOccurs(ps, 3);
    }
    assert Occurs(PositionLabel + d.position, text) by {
      assert ps[5] == PositionLabel && ps[6] == d.position;
      AdjacentOccurs(ps, 5);
    }
  }

  /**
   * The style and the tone are embedded as their string values, the tone a
   * second time in the strategy block where it governs the e-mail's register.
   */
  lemma PromptEmbedsStyleAndTone(b: Blocks, d: ApplicationData)
    ensures Occurs(StyleLabel + StyleValue(d.style), PromptWith(b, d))
    ensures Occurs(ToneLabel + ToneValue(d.tone), PromptWith(b, d))
    ensures Occurs(b.strategy + ToneValue(d.tone), PromptWith(b, d))
  {
    var ps, text := Pieces(b, d), PromptWith(b, d);
    assert Occurs(StyleLabel + StyleValue(d.style), text) by {
      assert ps[9] == StyleLabel && ps[10] == StyleValue(d.style);
      AdjacentOccurs(ps, 9);
    }
    assert Occurs(ToneLabel + ToneValue(d.tone), text) by {
      assert ps[11] == ToneLabel && ps[12] == ToneValue(d.tone);
      AdjacentOccurs(ps, 11);
    }
    assert Occurs(b.strategy + ToneValue(d.tone), text) by {
      assert ps[25] == b.strategy && ps[26] == ToneValue(d.tone);
      AdjacentOccurs(ps, 25);
    }
  }

  /** All five self-ratings are embedded, each behind its competency's label. */
  lemma PromptEmbedsSkills(b: Blocks, d: ApplicationData)
    ensures Occurs(LlmLabel + LevelText(d.aiSkills.llm), PromptWith(b, d))
    ensures Occurs(PromptingLabel + LevelText(d.aiSkills.prompting), PromptWith(b, d))
    ensures Occurs(VisualAILabel + LevelText(d.aiSkills.visualAI), PromptWith(b, d))
    ensures Occurs(AutomationLabel + LevelText(d.aiSkills.automation), PromptWith(b, d))
    ensures Occurs(AnalysisLabel + LevelText(d.aiSkills.analysis), PromptWith(b, d))
  {
    var ps, text := Pieces(b, d), PromptWith(b, d);
    assert Occurs(LlmLabel + LevelText(d.aiSkills.llm), text) by {
      assert ps[13] == LlmLabel && ps[14] == LevelText(d.aiSkills.llm);
      AdjacentOccurs(ps, 13);
    }
    assert Occurs(PromptingLabel + LevelText(d.aiSkills.prompting), text) by {
      assert ps[15] == PromptingLabel && ps[16] == LevelText(d.aiSkills.prompting);
      AdjacentOccurs(ps, 15);
    }
    assert Occurs(VisualAILabel + LevelText(d.aiSkills.visualAI), text) by {
      assert ps[17] == VisualAILabel && ps[18] == LevelText(d.aiSkills.visualAI);
      AdjacentOccurs(ps, 17);
    }
    assert Occurs(AutomationLabel + LevelText(d.aiSkills.automation), text) by {
      assert ps[19] == AutomationLabel && ps[20] == LevelText(d.aiSkills.automation);
      AdjacentOccurs(ps, 19);
    }
    assert Occurs(AnalysisLabel + LevelText(d.aiSkills.analysis), text) by {
      assert ps[21] == AnalysisLabel && ps[22] == LevelText(d.aiSkills.analysis);
      AdjacentOccurs(ps, 21);
    }
  }

  /** The salary slot holds the salary when it is a non-empty string and 'Nincs megadva' otherwise. */
  lemma PromptSalary(b: Blocks, d: ApplicationData)
    ensures Js.Truthy(d.salary) ==> Occurs(SalaryLabel + d.salary.value, PromptWith(b, d))
    ensures !Js.Truthy(d.salary) ==> Occurs(SalaryLabel + NotGiven, PromptWith(b, d))
  {
    var ps := Pieces(b, d);
    assert ps[7] == SalaryLabel && ps[8] == SalaryText(d);
    AdjacentOccurs(ps, 7);
  }

  /** A text that occurs at `k` behind a prefix occurs right after that prefix. */
  lemma OccursBehind(prefix: string, part: string, text: string, k: nat)
    requires OccursAt(prefix + part, text, k)
    ensures OccursAt(part, text, k + |prefix|)
  {
    assert text[k + |prefix|..k + |prefix| + |part|] == (prefix + part)[|prefix|..];
  }

  /** Without an attached file the prompt carries the labelled CV text. */
  lemma PromptCarriesCvText(b: Blocks, d: ApplicationData)
    requires d.cvFile.None?
    ensures Occurs(CvDataLabel + d.cvData, PromptWith(b, d))
  {
    var ps := Pieces(b, d);
    assert ps[23] == CvLead && ps[24] == CvDataLabel + d.cvData;
    AdjacentOccur(ps, 23);
    var k := |Js.Concat(ps[..23])|;
    OccursBehind(CvLead, CvDataLabel + d.cvData, PromptWith(b, d), k);
  }

  /** Without an attached file, different CV texts give different prompts. */
  lemma PromptDeterminesCvText(b: Blocks, d: ApplicationData, x: string)
    requires d.cvFile.None?
    requires PromptWith(b, d.(cvData := x)) == PromptWith(b, d)
    ensures x == d.cvData
  {
    var ps := Pieces(b, d);
    forall k | 0 <= k < PieceCount ensures Pieces(b, d.(cvData := x))[k] == ps[24 := CvDataLabel + x][k] {
    }
    assert Pieces(b, d.(cvData := x)) == ps[24 := CvDataLabel + x];
    ConcatDeterminesPiece(ps, 24, CvDataLabel + x);
    assert x == (CvDataLabel + x)[|CvDataLabel|..];
  }

  /**
   * With an attached file the prompt carries the attachment note instead of
   * the CV text, and does not depend on the CV text at all.
   */
  lemma PromptNotesAttachment(b: Blocks, d: ApplicationData)
    requires d.cvFile.Some?
    ensures Occurs(CvLead + b.attachmentNote, PromptWith(b, d))
    ensures forall x: string :: PromptWith(b, d.(cvData := x)) == PromptWith(b, d)
  {
    var ps := Pieces(b, d);
    AdjacentOccurs(ps, 23);
    forall x: string ensures PromptWith(b, d.(cvData := x)) == PromptWith(b, d) {
      forall k | 0 <= k < PieceCount ensures Pieces(b, d.(cvData := x))[k] == ps[k] {
      }
      assert Pieces(b, d.(cvData := x)) == ps;
    }
  }
}
