/**
 * The form state of App.tsx and the updaters its handlers pass to
 * `setFormData`: each takes the previous form and returns the next one.
 */
module FormState {
  import opened Wrappers
  import opened Types
  import Js

  // ---------------------------------------------------------------------------
  // The form's keys and a uniform view of their values
  // ---------------------------------------------------------------------------

  /** The keys of `ApplicationData` (`keyof ApplicationData`). */
  datatype Field =
    | CvDataKey | CvFileKey | JdDataKey | CompanyKey | PositionKey
    | SalaryKey | StyleKey | ToneKey | AISkillsKey

  /** A value that one of the keys can hold. */
  datatype Value =
    | Text(text: string)
    | MaybeText(maybeText: Option<string>)
    | MaybeFile(maybeFile: Option<FileData>)
    | StyleChoice(style: StyleType)
    | ToneChoice(tone: ToneType)
    | Skills(skills: AISkills)

  /** `v` has the type the interface declares for key `f`. */
  predicate Fits(f: Field, v: Value) {
    match f
    case CvDataKey | JdDataKey | CompanyKey | PositionKey => v.Text?
    case CvFileKey => v.MaybeFile?
    case SalaryKey => v.MaybeText?
    case StyleKey => v.StyleChoice?
    case ToneKey => v.ToneChoice?
    case AISkillsKey => v.Skills?
  }

  /** `d[f]`. */
  function Get(d: ApplicationData, f: Field): (v: Value)
    ensures Fits(f, v)
  {
    match f
    case CvDataKey => Text(d.cvData)
    case CvFileKey => MaybeFile(d.cvFile)
    case JdDataKey => Text(d.jdData)
    case CompanyKey => Text(d.company)
    case PositionKey => Text(d.position)
    case SalaryKey => MaybeText(d.salary)
    case StyleKey => StyleChoice(d.style)
    case ToneKey => ToneChoice(d.tone)
    case AISkillsKey => Skills(d.aiSkills)
  }

  /** Two forms that agree on every key are the same form. */
  lemma FieldsDetermine(a: ApplicationData, b: ApplicationData)
    requires forall f :: Get(a, f) == Get(b, f)
    ensures a == b
  {
    assert Get(a, CvDataKey) == Get(b, CvDataKey);
    assert Get(a, CvFileKey) == Get(b, CvFileKey);
    assert Get(a, JdDataKey) == Get(b, JdDataKey);
    assert Get(a, CompanyKey) == Get(b, CompanyKey);
    assert Get(a, PositionKey) == Get(b, PositionKey);
    assert Get(a, SalaryKey) == Get(b, SalaryKey);
    assert Get(a, StyleKey) == Get(b, StyleKey);
    assert Get(a, ToneKey) == Get(b, ToneKey);
    assert Get(a, AISkillsKey) == Get(b, AISkillsKey);
  }

  // ---------------------------------------------------------------------------
  // handleInputChange and handleSkillChange
  // ---------------------------------------------------------------------------

  /** `{ ...prev, [field]: value }`: key `f` holds `v`, every other key is unchanged. */
  function With(d: ApplicationData, f: Field, v: Value): (r: ApplicationData)
    requires Fits(f, v)
    ensures Get(r, f) == v
    ensures forall g :: g != f ==> Get(r, g) == Get(d, g)
  {
    match f
    case CvDataKey => d.(cvData := v.text)
    case CvFileKey => d.(cvFile := v.maybeFile)
    case JdDataKey => d.(jdData := v.text)
    case CompanyKey => d.(company := v.text)
    case PositionKey => d.(position := v.text)
    case SalaryKey => d.(salary := v.maybeText)
    case StyleKey => d.(style := v.style)
    case ToneKey => d.(tone := v.tone)
    case AISkillsKey => d.(aiSkills := v.skills)
  }

  /** Setting a key to the value it already holds changes nothing; setting it twice keeps the last value. */
  lemma WithLaws(d: ApplicationData, f: Field, v: Value, w: Value)
    requires Fits(f, v) && Fits(f, w)
    ensures With(d, f, Get(d, f)) == d
    ensures With(With(d, f, v), f, w) == With(d, f, w)
  {
    var a, b := With(d, f, Get(d, f)), With(With(d, f, v), f, w);
    forall g ensures Get(a, g) == Get(d, g) {
    }
    FieldsDetermine(a, d);
    forall g ensures Get(b, g) == Get(With(d, f, w), g) {
    }
    FieldsDetermine(b, With(d, f, w));
  }

  /** The keys of `AISkills` (`keyof AISkills`). */
  datatype SkillKey = Llm | Prompting | VisualAI | Automation | Analysis

  /** `skills[k]`. */
  function GetSkill(s: AISkills, k: SkillKey): Level {
    match k
    case Llm => s.llm
    case Prompting => s.prompting
    case VisualAI => s.visualAI
    case Automation => s.automation
    case Analysis => s.analysis
  }

  /** `{ ...prev, aiSkills: { ...prev.aiSkills, [skill]: value } }`. */
  function WithSkill(d: ApplicationData, k: SkillKey, v: Level): (r: ApplicationData)
    ensures GetSkill(r.aiSkills, k) == v
    ensures forall j :: j != k ==> GetSkill(r.aiSkills, j) == GetSkill(d.aiSkills, j)
    ensures forall f :: f != AISkillsKey ==> Get(r, f) == Get(d, f)
  {
    var s := d.aiSkills;
    var skills := match k
      case Llm => s.(llm := v)
      case Prompting => s.(prompting := v)
      case VisualAI => s.(visualAI := v)
      case Automation => s.(automation := v)
      case Analysis => s.(analysis := v);
    d.(aiSkills := skills)
  }

  /** A skill update is the whole-key update of `aiSkills` with one rating replaced. */
  lemma WithSkillIsWith(d: ApplicationData, k: SkillKey, v: Level)
    ensures WithSkill(d, k, v) == With(d, AISkillsKey, Skills(WithSkill(d, k, v).aiSkills))
  {
    var r := WithSkill(d, k, v);
    var e := With(d, AISkillsKey, Skills(r.aiSkills));
    forall f ensures Get(r, f) == Get(e, f) {
    }
    FieldsDetermine(r, e);
  }

  // ---------------------------------------------------------------------------
  // handleFileChange and removeFile
  // ---------------------------------------------------------------------------

  /** The 3 MB upload limit, in bytes. */
  const MaxFileBytes: nat := 3 * 1024 * 1024
  /** The MIME type assumed when the browser reports none. */
  const DefaultMimeType: string := "application/pdf"
  const FileTooLargeMessage: string := "A fájl mérete nem haladhatja meg a 3MB-ot."

  /** The first file of the input's `files`: its name, reported MIME type (possibly empty) and size. */
  datatype PickedFile = PickedFile(name: string, mimeType: string, size: nat)

  predicate TooLarge(file: PickedFile) {
    file.size > MaxFileBytes
  }

  /**
   * The attachment built from the file and its data URL: the text between the
   * first and the second comma of the URL, the reported MIME type or the
   * default when it is empty, and the file name.
   */
  function FileDataOf(file: PickedFile, dataUrl: string): (fd: FileData)
    requires ',' in dataUrl
    ensures Js.SplitField(dataUrl, ',', 1) == Some(fd.base64)
    ensures fd.mimeType == (if file.mimeType == "" then DefaultMimeType else file.mimeType)
    ensures fd.mimeType != ""
    ensures fd.fileName == file.name
  {
    Js.SecondFieldExists(dataUrl, ',');
    FileData(Js.SplitField(dataUrl, ',', 1).value, Js.OrElse(Some(file.mimeType), DefaultMimeType), file.name)
  }

  /**
   * For a data URL `header,payload` (a base64 payload never holds a comma),
   * the attachment carries exactly the payload.
   */
  lemma DataUrlPayload(file: PickedFile, header: string, payload: string)
    requires ',' !in header && ',' !in payload
    ensures FileDataOf(file, header + "," + payload).base64 == payload
  {
    assert header + "," + payload == header + [','] + payload;
    Js.SecondFieldOf(header, payload, ',');
  }

  /** The `onload` updater: attach the file and clear the CV text. */
  function WithFile(d: ApplicationData, fd: FileData): (r: ApplicationData)
    ensures r.cvFile == Some(fd) && r.cvData == ""
    ensures forall f :: f != CvFileKey && f != CvDataKey ==> Get(r, f) == Get(d, f)
  {
    d.(cvFile := Some(fd), cvData := "")
  }

  /** The `removeFile` updater: drop the file and clear the CV text. */
  function WithoutFile(d: ApplicationData): (r: ApplicationData)
    ensures r.cvFile.None? && r.cvData == ""
    ensures forall f :: f != CvFileKey && f != CvDataKey ==> Get(r, f) == Get(d, f)
  {
    d.(cvFile := None, cvData := "")
  }

  /** Attaching and then removing a file leaves the form as removing alone would. */
  lemma AttachThenRemove(d: ApplicationData, fd: FileData)
    ensures WithoutFile(WithFile(d, fd)) == WithoutFile(d)
  {
    var a, b := WithoutFile(WithFile(d, fd)), WithoutFile(d);
    forall f ensures Get(a, f) == Get(b, f) {
    }
    FieldsDetermine(a, b);
  }

  // ---------------------------------------------------------------------------
  // CV text versus CV file
  // ---------------------------------------------------------------------------

  /** The CV comes either as text or as a file: with a file attached the text is empty. */
  predicate CvExclusive(d: ApplicationData) {
    d.cvFile.Some? ==> d.cvData == ""
  }

  /**
   * An input edit the page can issue: `handleInputChange` is never called for
   * `cvFile` or `aiSkills`, and the CV textarea is disabled while a file is attached.
   */
  predicate EditAllowed(d: ApplicationData, f: Field) {
    f != CvFileKey && f != AISkillsKey && (f == CvDataKey ==> d.cvFile.None?)
  }

  /** Every handler keeps the CV text empty while a file is attached. */
  lemma HandlersKeepCvExclusive(d: ApplicationData, f: Field, v: Value, k: SkillKey, l: Level, fd: FileData)
    requires CvExclusive(d)
    requires Fits(f, v) && EditAllowed(d, f)
    ensures CvExclusive(With(d, f, v))
    ensures CvExclusive(WithSkill(d, k, l))
    ensures CvExclusive(WithFile(d, fd))
    ensures CvExclusive(WithoutFile(d))
  {
    assert Get(With(d, f, v), CvFileKey) == Get(d, CvFileKey);
    if f != CvDataKey {
      assert Get(With(d, f, v), CvDataKey) == Get(d, CvDataKey);
    }
    assert Get(WithSkill(d, k, l), CvFileKey) == Get(d, CvFileKey);
    assert Get(WithSkill(d, k, l), CvDataKey) == Get(d, CvDataKey);
  }

  // ---------------------------------------------------------------------------
  // The initial form and handleSubmit's validation
  // ---------------------------------------------------------------------------

  /** The form the component starts with: no CV in either form, so the form is consistent. */
  function InitialForm(): (f: ApplicationData)
    ensures !HasCv(f) && CvExclusive(f)
  {
    ApplicationData("", None, "", "", "", Some(""), Professional, Formal, AISkills(3, 3, 1, 2, 3))
  }

  const CvMissingMessage: string := "Kérjük, adjon meg CV adatokat szövegesen vagy töltsön fel egy fájlt."
  const KeyMissingMessage: string := "Kérjük, adja meg a Google API kulcsát a fejlécben a generáláshoz."

  /** There is a CV: non-empty text or an attached file. */
  predicate HasCv(d: ApplicationData) {
    d.cvData != "" || d.cvFile.Some?
  }

  /**
   * The message `handleSubmit` stops with, if any: the CV is checked first,
   * the API key second.
   */
  function SubmitBlocker(d: ApplicationData, apiKey: string): (r: Option<string>)
    ensures r == Some(CvMissingMessage) <==> !HasCv(d)
    ensures r == Some(KeyMissingMessage) <==> HasCv(d) && apiKey == ""
    ensures r.None? <==> HasCv(d) && apiKey != ""
  {
    assert |CvMissingMessage| == 68 && |KeyMissingMessage| == 65;
    if !HasCv(d) then Some(CvMissingMessage)
    else if apiKey == "" then Some(KeyMissingMessage)
    else None
  }

  /** The initial form is consistent, and submitting it stops at the CV check whatever the key. */
  lemma InitialFormBlocked(apiKey: string)
    ensures CvExclusive(InitialForm())
    ensures SubmitBlocker(InitialForm(), apiKey) == Some(CvMissingMessage)
  {
  }

  /** After a file is removed, submitting stops at the CV check; after one is attached, only the key can stop it. */
  lemma FileDecidesCvCheck(d: ApplicationData, fd: FileData, apiKey: string)
    ensures SubmitBlocker(WithoutFile(d), apiKey) == Some(CvMissingMessage)
    ensures SubmitBlocker(WithFile(d, fd), apiKey) == (if apiKey == "" then Some(KeyMissingMessage) else None)
  {
  }
}
