/** The application's records and enumerations (types.ts). */
module Types {
  import opened Wrappers

  /** The seven writing-style presets. */
  datatype StyleType =
    | Professional
    | SolutionOriented
    | Innovator
    | Storyteller
    | DataDriven
    | Minimalist
    | Concise

  /** The string value of each style, which is what the prompt interpolates. */
  function StyleValue(s: StyleType): string {
    match s
    case Professional => "Professzionális (hivatalos/tisztelettudó)"
    case SolutionOriented => "Megoldásközpontú (operatív/gyors)"
    case Innovator => "Innovátor (AI/jövőorientált)"
    case Storyteller => "Storyteller (személyes út/narratív)"
    case DataDriven => "Adatvezérelt (KPI/eredményfókuszú)"
    case Minimalist => "Minimalista (lényegre törő/tiszta)"
    case Concise => "Tömörség (extra rövid/direkt)"
  }

  const AllStyles: seq<StyleType> :=
    [Professional, SolutionOriented, Innovator, Storyteller, DataDriven, Minimalist, Concise]

  /** There are exactly seven styles, and no two share a string value. */
  lemma StylesDistinct()
    ensures |AllStyles| == 7
    ensures forall s: StyleType :: s in AllStyles
    ensures forall i, j :: 0 <= i < j < |AllStyles| ==> StyleValue(AllStyles[i]) != StyleValue(AllStyles[j])
  {
    forall s: StyleType ensures s in AllStyles {
      match s
      case Professional => assert AllStyles[0] == s;
      case SolutionOriented => assert AllStyles[1] == s;
      case Innovator => assert AllStyles[2] == s;
      case Storyteller => assert AllStyles[3] == s;
      case DataDriven => assert AllStyles[4] == s;
      case Minimalist => assert AllStyles[5] == s;
      case Concise => assert AllStyles[6] == s;
    }
  }

  /** The three registers of address. */
  datatype ToneType = Informal | Formal | Business

  function ToneValue(t: ToneType): string {
    match t
    case Informal => "Tegező"
    case Formal => "Magázó"
    case Business => "Üzleties"
  }

  const AllTones: seq<ToneType> := [Informal, Formal, Business]

  /** There are exactly three tones, and no two share a string value. */
  lemma TonesDistinct()
    ensures |AllTones| == 3
    ensures forall t: ToneType :: t in AllTones
    ensures forall i, j :: 0 <= i < j < |AllTones| ==> ToneValue(AllTones[i]) != ToneValue(AllTones[j])
  {
    forall t: ToneType ensures t in AllTones {
      match t
      case Informal => assert AllTones[0] == t;
      case Formal => assert AllTones[1] == t;
      case Business => assert AllTones[2] == t;
    }
  }

  /** A self-rating as the range slider produces it: an integer from 1 to 5. */
  type Level = x: int | 1 <= x <= 5 witness 1

  /** The five self-rated AI competencies. */
  datatype AISkills = AISkills(llm: Level, prompting: Level, visualAI: Level, automation: Level, analysis: Level)

  /** An uploaded CV document, its content base64-encoded. */
  datatype FileData = FileData(base64: string, mimeType: string, fileName: string)

  /** The form: `cvFile` and `salary` are optional, the other fields are always present. */
  datatype ApplicationData = ApplicationData(
    cvData: string,
    cvFile: Option<FileData>,
    jdData: string,
    company: string,
    position: string,
    salary: Option<string>,
    style: StyleType,
    tone: ToneType,
    aiSkills: AISkills)

  /** A competency label (the JSON key `label`) with a match score, documented as 0 to 100 and not enforced. */
  datatype SkillMatch = SkillMatch(labelText: string, score: int)

  /** What the model returns; `salaryNote` and `cvAnalysisReport` are optional. */
  datatype GenerationResult = GenerationResult(
    subject: string,
    emailTemplate: string,
    coverLetter: string,
    salaryNote: Option<string>,
    cvAnalysisReport: Option<string>,
    skillAlignment: seq<SkillMatch>)
}
