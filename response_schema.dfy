/**
 * The response schema that services/geminiService.ts declares to the model,
 * as data, with the JSON values it admits; and the JSON shape of a
 * `GenerationResult` as types.ts describes it.
 */
module ResponseSchema {
  import opened Wrappers
  import opened Types

  /** JSON values; numbers are restricted to integers. */
  datatype Json =
    | JNull
    | JBool(b: bool)
    | JNumber(n: int)
    | JString(s: string)
    | JArray(items: seq<Json>)
    | JObject(members: seq<Member>)

  datatype Member = Member(key: string, value: Json)

  /** The subset of the schema language the declaration uses. */
  datatype Schema =
    | SString
    | SNumber
    | SArray(items: Schema)
    | SObject(properties: seq<Property>, required: seq<string>)

  datatype Property = Property(name: string, schema: Schema)

  /**
   * The value stored under `key` in an object's members. For a repeated key
   * this is the first value, where `JSON.parse` keeps the last; `ToJson`
   * never repeats a key, so the two agree on every object this model builds.
   */
  function Lookup(members: seq<Member>, key: string): Option<Json> {
    if members == [] then None
    else if members[0].key == key then Some(members[0].value)
    else Lookup(members[1..], key)
  }

  /** `j` satisfies `s`: the right kind, required keys present, declared properties well-typed. */
  predicate Conforms(j: Json, s: Schema)
    decreases s
  {
    match s
    case SString => j.JString?
    case SNumber => j.JNumber?
    case SArray(item) =>
      j.JArray? && forall i :: 0 <= i < |j.items| ==> Conforms(j.items[i], item)
    case SObject(props, req) =>
      && j.JObject?
      && (forall k :: k in req ==> Lookup(j.members, k).Some?)
      && (forall i :: 0 <= i < |props| ==>
            var v := Lookup(j.members, props[i].name);
            v.None? || Conforms(v.value, props[i].schema))
  }

  /** The item schema of `skillAlignment`: both keys required. */
  const SkillItem: Schema :=
    SObject([Property("label", SString), Property("score", SNumber)], ["label", "score"])

  /** The declared response schema; `salaryNote` is declared but not required. */
  const Declared: Schema :=
    SObject(
      [ Property("subject", SString),
        Property("emailTemplate", SString),
        Property("coverLetter", SString),
        Property("salaryNote", SString),
        Property("cvAnalysisReport", SString),
        Property("skillAlignment", SArray(SkillItem)) ],
      ["subject", "emailTemplate", "coverLetter", "cvAnalysisReport", "skillAlignment"])

  function SkillToJson(m: SkillMatch): Json {
    JObject([Member("label", JString(m.labelText)), Member("score", JNumber(m.score))])
  }

  /** An optional field becomes a member only when present. */
  function Optional(key: string, v: Option<string>): seq<Member> {
    if v.Some? then [Member(key, JString(v.value))] else []
  }

  /** The JSON object a `GenerationResult` stands for. */
  function ToJson(g: GenerationResult): Json {
    JObject(
      [ Member("subject", JString(g.subject)),
        Member("emailTemplate", JString(g.emailTemplate)),
        Member("coverLetter", JString(g.coverLetter)) ]
      + Optional("salaryNote", g.salaryNote)
      + Optional("cvAnalysisReport", g.cvAnalysisReport)
      + [Member("skillAlignment", JArray(seq(|g.skillAlignment|, i requires 0 <= i < |g.skillAlignment| => SkillToJson(g.skillAlignment[i]))))])
  }

  /** Every skill match satisfies the item schema. */
  lemma SkillConforms(m: SkillMatch)
    ensures Conforms(SkillToJson(m), SkillItem)
  {
    var ms := SkillToJson(m).members;
    assert Lookup(ms, "label") == Some(JString(m.labelText));
    assert Lookup(ms, "score") == Some(JNumber(m.score)) by {
      assert ms[1..] == [Member("score", JNumber(m.score))];
    }
  }

  lemma {:induction false} LookupAppend(a: seq<Member>, b: seq<Member>, key: string)
    ensures Lookup(a + b, key) == if Lookup(a, key).Some? then Lookup(a, key) else Lookup(b, key)
    decreases |a|
  {
    if a == [] {
      assert a + b == b;
    } else {
      assert (a + b)[1..] == a[1..] + b;
      LookupAppend(a[1..], b, key);
    }
  }

  /** Looking up a key in four consecutive runs of members. */
  lemma LookupIn4(a: seq<Member>, b: seq<Member>, c: seq<Member>, d: seq<Member>, key: string)
    ensures Lookup(a + b + c + d, key) ==
      if Lookup(a, key).Some? then Lookup(a, key)
      else if Lookup(b, key).Some? then Lookup(b, key)
      else if Lookup(c, key).Some? then Lookup(c, key)
      else Lookup(d, key)
  {
    LookupAppend(a + b + c, d, key);
    LookupAppend(a + b, c, key);
    LookupAppend(a, b, key);
  }

  /** The members of the JSON of a result that hold the required fields. */
  function Fixed(g: GenerationResult): seq<Member> {
    [ Member("subject", JString(g.subject)),
      Member("emailTemplate", JString(g.emailTemplate)),
      Member("coverLetter", JString(g.coverLetter)) ]
  }

  function SkillItems(g: GenerationResult): seq<Json> {
    seq(|g.skillAlignment|, i requires 0 <= i < |g.skillAlignment| => SkillToJson(g.skillAlignment[i]))
  }

  /** Where each key of the declared schema lives in the JSON of a result. */
  lemma ToJsonLookups(g: GenerationResult)
    ensures Lookup(ToJson(g).members, "subject") == Some(JString(g.subject))
    ensures Lookup(ToJson(g).members, "emailTemplate") == Some(JString(g.emailTemplate))
    ensures Lookup(ToJson(g).members, "coverLetter") == Some(JString(g.coverLetter))
    ensures Lookup(ToJson(g).members, "salaryNote") == if g.salaryNote.Some? then Some(JString(g.salaryNote.value)) else None
    ensures Lookup(ToJson(g).members, "cvAnalysisReport") == if g.cvAnalysisReport.Some? then Some(JString(g.cvAnalysisReport.value)) else None
    ensures Lookup(ToJson(g).members, "skillAlignment") == Some(JArray(SkillItems(g)))
  {
    var fixed := Fixed(g);
    var sn, ca := Optional("salaryNote", g.salaryNote), Optional("cvAnalysisReport", g.cvAnalysisReport);
    var last := [Member("skillAlignment", JArray(SkillItems(g)))];
    assert ToJson(g).members == fixed + sn + ca + last;
    var f1, f2 := fixed[1..], fixed[1..][1..];
    assert f1 == [fixed[1], fixed[2]] && f2 == [fixed[2]] && f2[1..] == [];
    forall key | key !in {"subject", "emailTemplate", "coverLetter"}
      ensures Lookup(fixed, key) == None
    {
      assert Lookup(fixed, key) == Lookup(f1, key) == Lookup(f2, key) == Lookup(f2[1..], key);
    }
    assert Lookup(fixed, "emailTemplate") == Lookup(f1, "emailTemplate");
    assert Lookup(fixed, "coverLetter") == Lookup(f1, "coverLetter") == Lookup(f2, "coverLetter");
    assert last[1..] == [];
    assert Lookup(last, "skillAlignment") == Some(JArray(SkillItems(g)));
    forall key | key != "salaryNote" ensures Lookup(sn, key) == None {
      if sn != [] { assert sn[1..] == []; }
    }
    forall key | key != "cvAnalysisReport" ensures Lookup(ca, key) == None {
      if ca != [] { assert ca[1..] == []; }
    }
    LookupIn4(fixed, sn, ca, last, "subject");
    LookupIn4(fixed, sn, ca, last, "emailTemplate");
    LookupIn4(fixed, sn, ca, last, "coverLetter");
    LookupIn4(fixed, sn, ca, last, "salaryNote");
    LookupIn4(fixed, sn, ca, last, "cvAnalysisReport");
    LookupIn4(fixed, sn, ca, last, "skillAlignment");
  }

  /** The skill array of a result satisfies the array schema. */
  lemma SkillArrayConforms(g: GenerationResult)
    ensures Conforms(JArray(SkillItems(g)), SArray(SkillItem))
  {
    var items := SkillItems(g);
    forall i | 0 <= i < |items| ensures Conforms(items[i], SkillItem) {
      SkillConforms(g.skillAlignment[i]);
    }
  }

  /**
   * The JSON of a result satisfies the declared schema exactly when it has a
   * CV analysis: types.ts makes `cvAnalysisReport` optional although the
   * schema requires it, and `salaryNote` is optional in both.
   */
  lemma ResultConformsIffAnalysis(g: GenerationResult)
    ensures Conforms(ToJson(g), Declared) <==> g.cvAnalysisReport.Some?
  {
    ToJsonLookups(g);
    SkillArrayConforms(g);
    var j := ToJson(g);
    var props, req := Declared.properties, Declared.required;
    if g.cvAnalysisReport.None? {
      assert req[3] == "cvAnalysisReport";
    } else {
      assert forall k :: k in req ==> Lookup(j.members, k).Some? by {
        assert req == ["subject", "emailTemplate", "coverLetter", "cvAnalysisReport", "skillAlignment"];
      }
      forall i | 0 <= i < |props|
        ensures var v := Lookup(j.members, props[i].name); v.None? || Conforms(v.value, props[i].schema)
      {
        assert props[i] == [ Property("subject", SString),
          Property("emailTemplate", SString),
          Property("coverLetter", SString),
          Property("salaryNote", SString),
          Property("cvAnalysisReport", SString),
          Property("skillAlignment", SArray(SkillItem)) ][i];
      }
    }
  }
}
