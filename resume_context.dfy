/** The resume store: the Resume record and its sub-records, the partial update
    that `updateResume` spreads over the working copy, the canned content table,
    and the provider that owns the collection `resumes` and the working copy
    `currentResume`. */
module ResumeContext {
  import opened Seqs

  datatype Option<T> = None | Some(value: T) {
    function GetOr(default: T): T {
      match this
      case Some(v) => v
      case None => default
    }
  }

  datatype WorkExperience = WorkExperience(
    id: string, company: string, role: string,
    startDate: string, endDate: string, description: string)

  datatype Education = Education(
    id: string, school: string, degree: string, startDate: string, endDate: string)

  datatype Resume = Resume(
    id: string, title: string,
    name: string, email: string, phone: string, location: string, summary: string,
    workExperience: seq<WorkExperience>, education: seq<Education>,
    skills: seq<string>, certifications: seq<string>, languages: seq<string>, hobbies: seq<string>,
    template: string, themeColor: string, lastModified: string)

  /** The properties of a Resume, one constructor per key of the record. */
  datatype ResumeField =
    | IdField | TitleField | NameField | EmailField | PhoneField | LocationField | SummaryField
    | WorkExperienceField | EducationField
    | SkillsField | CertificationsField | LanguagesField | HobbiesField
    | TemplateField | ThemeColorField | LastModifiedField

  /** The value stored under one property. */
  datatype FieldValue =
    | TextValue(text: string)
    | JobsValue(jobs: seq<WorkExperience>)
    | SchoolsValue(schools: seq<Education>)
    | ListValue(items: seq<string>)

  function Field(r: Resume, f: ResumeField): FieldValue {
    match f
    case IdField => TextValue(r.id)
    case TitleField => TextValue(r.title)
    case NameField => TextValue(r.name)
    case EmailField => TextValue(r.email)
    case PhoneField => TextValue(r.phone)
    case LocationField => TextValue(r.location)
    case SummaryField => TextValue(r.summary)
    case WorkExperienceField => JobsValue(r.workExperience)
    case EducationField => SchoolsValue(r.education)
    case SkillsField => ListValue(r.skills)
    case CertificationsField => ListValue(r.certifications)
    case LanguagesField => ListValue(r.languages)
    case HobbiesField => ListValue(r.hobbies)
    case TemplateField => TextValue(r.template)
    case ThemeColorField => TextValue(r.themeColor)
    case LastModifiedField => TextValue(r.lastModified)
  }

  /** Two resumes that agree on every property are the same resume. */
  lemma FieldsDetermineResume(a: Resume, b: Resume)
    requires forall f :: Field(a, f) == Field(b, f)
    ensures a == b
  {
    assert a.id == b.id by { assert Field(a, IdField) == Field(b, IdField); }
    assert a.title == b.title by { assert Field(a, TitleField) == Field(b, TitleField); }
    assert a.name == b.name by { assert Field(a, NameField) == Field(b, NameField); }
    assert a.email == b.email by { assert Field(a, EmailField) == Field(b, EmailField); }
    assert a.phone == b.phone by { assert Field(a, PhoneField) == Field(b, PhoneField); }
    assert a.location == b.location by { assert Field(a, LocationField) == Field(b, LocationField); }
    assert a.summary == b.summary by { assert Field(a, SummaryField) == Field(b, SummaryField); }
    assert a.workExperience == b.workExperience by { assert Field(a, WorkExperienceField) == Field(b, WorkExperienceField); }
    assert a.education == b.education by { assert Field(a, EducationField) == Field(b, EducationField); }
    assert a.skills == b.skills by { assert Field(a, SkillsField) == Field(b, SkillsField); }
    assert a.certifications == b.certifications by { assert Field(a, CertificationsField) == Field(b, CertificationsField); }
    assert a.languages == b.languages by { assert Field(a, LanguagesField) == Field(b, LanguagesField); }
    assert a.hobbies == b.hobbies by { assert Field(a, HobbiesField) == Field(b, HobbiesField); }
    assert a.template == b.template by { assert Field(a, TemplateField) == Field(b, TemplateField); }
    assert a.themeColor == b.themeColor by { assert Field(a, ThemeColorField) == Field(b, ThemeColorField); }
    assert a.lastModified == b.lastModified by { assert Field(a, LastModifiedField) == Field(b, LastModifiedField); }
  }

  /** Partial<Resume>: each property is either present (Some) or absent (None). */
  datatype Patch = Patch(
    id: Option<string>, title: Option<string>,
    name: Option<string>, email: Option<string>, phone: Option<string>,
    location: Option<string>, summary: Option<string>,
    workExperience: Option<seq<WorkExperience>>, education: Option<seq<Education>>,
    skills: Option<seq<string>>, certifications: Option<seq<string>>,
    languages: Option<seq<string>>, hobbies: Option<seq<string>>,
    template: Option<string>, themeColor: Option<string>, lastModified: Option<string>)

  /** The empty object `{}`. */
  const NoChange: Patch := Patch(None, None, None, None, None, None, None, None,
                                 None, None, None, None, None, None, None, None)

  function PatchField(u: Patch, f: ResumeField): Option<FieldValue> {
    match f
    case IdField => if u.id.Some? then Some(TextValue(u.id.value)) else None
    case TitleField => if u.title.Some? then Some(TextValue(u.title.value)) else None
    case NameField => if u.name.Some? then Some(TextValue(u.name.value)) else None
    case EmailField => if u.email.Some? then Some(TextValue(u.email.value)) else None
    case PhoneField => if u.phone.Some? then Some(TextValue(u.phone.value)) else None
    case LocationField => if u.location.Some? then Some(TextValue(u.location.value)) else None
    case SummaryField => if u.summary.Some? then Some(TextValue(u.summary.value)) else None
    case WorkExperienceField =>
      if u.workExperience.Some? then Some(JobsValue(u.workExperience.value)) else None
    case EducationField => if u.education.Some? then Some(SchoolsValue(u.education.value)) else None
    case SkillsField => if u.skills.Some? then Some(ListValue(u.skills.value)) else None
    case CertificationsField =>
      if u.certifications.Some? then Some(ListValue(u.certifications.value)) else None
    case LanguagesField => if u.languages.Some? then Some(ListValue(u.languages.value)) else None
    case HobbiesField => if u.hobbies.Some? then Some(ListValue(u.hobbies.value)) else None
    case TemplateField => if u.template.Some? then Some(TextValue(u.template.value)) else None
    case ThemeColorField => if u.themeColor.Some? then Some(TextValue(u.themeColor.value)) else None
    case LastModifiedField =>
      if u.lastModified.Some? then Some(TextValue(u.lastModified.value)) else None
  }

  /** `{ ...cur, ...u }`: every property present in `u` takes its value from `u`,
      every other property keeps the value it had in `cur`. */
  function Merge(cur: Resume, u: Patch): (r: Resume)
    ensures forall f :: Field(r, f) == if PatchField(u, f).Some? then PatchField(u, f).value else Field(cur, f)
  {
    Resume(
      u.id.GetOr(cur.id), u.title.GetOr(cur.title),
      u.name.GetOr(cur.name), u.email.GetOr(cur.email), u.phone.GetOr(cur.phone),
      u.location.GetOr(cur.location), u.summary.GetOr(cur.summary),
      u.workExperience.GetOr(cur.workExperience), u.education.GetOr(cur.education),
      u.skills.GetOr(cur.skills), u.certifications.GetOr(cur.certifications),
      u.languages.GetOr(cur.languages), u.hobbies.GetOr(cur.hobbies),
      u.template.GetOr(cur.template), u.themeColor.GetOr(cur.themeColor),
      u.lastModified.GetOr(cur.lastModified))
  }

  /** `{ ...u1, ...u2 }`: the later patch wins where both carry a property. */
  function Then(u1: Patch, u2: Patch): Patch {
    Patch(
      if u2.id.Some? then u2.id else u1.id,
      if u2.title.Some? then u2.title else u1.title,
      if u2.name.Some? then u2.name else u1.name,
      if u2.email.Some? then u2.email else u1.email,
      if u2.phone.Some? then u2.phone else u1.phone,
      if u2.location.Some? then u2.location else u1.location,
      if u2.summary.Some? then u2.summary else u1.summary,
      if u2.workExperience.Some? then u2.workExperience else u1.workExperience,
      if u2.education.Some? then u2.education else u1.education,
      if u2.skills.Some? then u2.skills else u1.skills,
      if u2.certifications.Some? then u2.certifications else u1.certifications,
      if u2.languages.Some? then u2.languages else u1.languages,
      if u2.hobbies.Some? then u2.hobbies else u1.hobbies,
      if u2.template.Some? then u2.template else u1.template,
      if u2.themeColor.Some? then u2.themeColor else u1.themeColor,
      if u2.lastModified.Some? then u2.lastModified else u1.lastModified)
  }

  /** An empty update changes nothing. */
  lemma MergeNoChange(cur: Resume)
    ensures Merge(cur, NoChange) == cur
  {
    forall f ensures Field(Merge(cur, NoChange), f) == Field(cur, f) {
      assert PatchField(NoChange, f) == None;
    }
    FieldsDetermineResume(Merge(cur, NoChange), cur);
  }

  /** Two successive updates are one update with the combined patch. */
  lemma MergeThen(cur: Resume, u1: Patch, u2: Patch)
    ensures Merge(Merge(cur, u1), u2) == Merge(cur, Then(u1, u2))
  {
  }

  /** Applying the same update twice is applying it once. */
  lemma MergeIdempotent(cur: Resume, u: Patch)
    ensures Merge(Merge(cur, u), u) == Merge(cur, u)
  {
    var once := Merge(cur, u);
    forall f ensures Field(Merge(once, u), f) == Field(once, f) {
    }
    FieldsDetermineResume(Merge(once, u), once);
  }

  /** `{ ...resume, lastModified: now }`: only the timestamp is replaced. */
  function Stamp(r: Resume, now: string): (s: Resume)
    ensures Field(s, LastModifiedField) == TextValue(now)
    ensures forall f :: f != LastModifiedField ==> Field(s, f) == Field(r, f)
  {
    r.(lastModified := now)
  }

  /** Some entry of `rs` carries `id`. */
  predicate HasId(rs: seq<Resume>, id: string) {
    HasKey(rs, (r: Resume) => r.id, id)
  }

  ghost predicate UniqueIds(rs: seq<Resume>) {
    KeysDistinct(rs, (r: Resume) => r.id)
  }

  /** `resumes.find(r => r.id === id)`: the first entry carrying `id`, if any. */
  function FindById(rs: seq<Resume>, id: string): (found: Option<Resume>)
    ensures found.Some? <==> HasId(rs, id)
    ensures found.Some? ==> (found.value.id == id &&
      exists i :: 0 <= i < |rs| && rs[i] == found.value && forall j :: 0 <= j < i ==> rs[j].id != id)
  {
    if rs == [] then None
    else if rs[0].id == id then Some(rs[0])
    else
      var found := FindById(rs[1..], id);
      FindByIdStep(rs, id, found);
      found
  }

  /** What the search in the tail tells about the whole sequence once its head is skipped. */
  lemma FindByIdStep(rs: seq<Resume>, id: string, found: Option<Resume>)
    requires rs != [] && rs[0].id != id
    requires found.Some? <==> HasId(rs[1..], id)
    requires found.Some? ==> (found.value.id == id &&
      exists i :: 0 <= i < |rs[1..]| && rs[1..][i] == found.value && forall j :: 0 <= j < i ==> rs[1..][j].id != id)
    ensures found.Some? <==> HasId(rs, id)
    ensures found.Some? ==> (found.value.id == id &&
      exists i :: 0 <= i < |rs| && rs[i] == found.value && forall j :: 0 <= j < i ==> rs[j].id != id)
  {
    if found.Some? {
      var i :| 0 <= i < |rs[1..]| && rs[1..][i] == found.value &&
        forall j :: 0 <= j < i ==> rs[1..][j].id != id;
      assert rs[i + 1] == found.value;
      forall j | 0 <= j < i + 1 ensures rs[j].id != id {
        if j > 0 { assert rs[j] == rs[1..][j - 1]; }
      }
      assert HasId(rs, id) by { assert rs[i + 1].id == id; }
    }
    if HasId(rs, id) {
      var k :| 0 <= k < |rs| && rs[k].id == id;
      assert rs[1..][k - 1].id == id;
    }
  }

  /** `rs.map(r => r.id === x.id ? x : r)`: every entry carrying x's id becomes x. */
  function ReplaceById(rs: seq<Resume>, x: Resume): (out: seq<Resume>)
    ensures |out| == |rs|
    ensures forall i :: 0 <= i < |rs| ==> out[i] == if rs[i].id == x.id then x else rs[i]
  {
    MapWhere(rs, (r: Resume) => r.id == x.id, (r: Resume) => x)
  }

  /** Replacing by id never changes which id sits at which position. */
  lemma ReplaceKeepsIds(rs: seq<Resume>, x: Resume)
    ensures forall i :: 0 <= i < |rs| ==> ReplaceById(rs, x)[i].id == rs[i].id
    ensures UniqueIds(rs) ==> UniqueIds(ReplaceById(rs, x))
  {
  }

  /** Replacing an id that no entry carries is the identity. */
  lemma ReplaceMissingId(rs: seq<Resume>, x: Resume)
    requires !HasId(rs, x.id)
    ensures ReplaceById(rs, x) == rs
  {
  }

  /** After the replacement, an entry carrying x's id is x itself. */
  lemma ReplacePersists(rs: seq<Resume>, x: Resume)
    requires HasId(rs, x.id)
    ensures x in ReplaceById(rs, x)
  {
    var k :| 0 <= k < |rs| && rs[k].id == x.id;
    assert ReplaceById(rs, x)[k] == x;
  }

  /** `rs.filter(r => r.id !== id)`: the entries that do not carry `id`, in order. */
  function WithoutId(rs: seq<Resume>, id: string): (out: seq<Resume>)
    ensures !HasId(out, id)
    ensures |out| <= |rs|
    ensures IsSubsequence(out, rs)
    ensures forall r :: r in rs && r.id != id ==> r in out
    ensures forall r: Resume :: r.id != id ==> multiset(out)[r] == multiset(rs)[r]
  {
    FilterCounts(rs, (r: Resume) => r.id != id);
    FilterMembers(rs, (r: Resume) => r.id != id);
    FilterIsSubsequence(rs, (r: Resume) => r.id != id);
    Filter(rs, (r: Resume) => r.id != id)
  }

  lemma WithoutIdKeepsUniqueIds(rs: seq<Resume>, id: string)
    requires UniqueIds(rs)
    ensures UniqueIds(WithoutId(rs, id))
  {
    FilterKeepsKeysDistinct(rs, (r: Resume) => r.id != id, (r: Resume) => r.id);
  }

  /** With distinct ids, deleting an id that some entry carries removes exactly one entry. */
  lemma {:induction false} WithoutPresentId(rs: seq<Resume>, id: string)
    requires UniqueIds(rs) && HasId(rs, id)
    ensures |WithoutId(rs, id)| == |rs| - 1
  {
    var tail := rs[1..];
    assert rs == [rs[0]] + tail;
    if rs[0].id == id {
      forall i | 0 <= i < |tail| ensures tail[i].id != id {
        assert tail[i] == rs[i + 1];
      }
      FilterAllKept(tail, (r: Resume) => r.id != id);
    } else {
      assert UniqueIds(tail) by {
        forall i, j | 0 <= i < j < |tail| ensures tail[i].id != tail[j].id {
          assert tail[i] == rs[i + 1] && tail[j] == rs[j + 1];
        }
      }
      var k :| 0 <= k < |rs| && rs[k].id == id;
      assert tail[k - 1].id == id;
      WithoutPresentId(tail, id);
    }
  }

  /** Deleting an id that no entry carries is the identity. */
  lemma WithoutMissingId(rs: seq<Resume>, id: string)
    requires !HasId(rs, id)
    ensures WithoutId(rs, id) == rs
  {
    FilterAllKept(rs, (r: Resume) => r.id != id);
  }

  /** Appending a resume whose id is not yet taken keeps ids distinct. */
  lemma AppendFreshKeepsUniqueIds(rs: seq<Resume>, x: Resume)
    requires UniqueIds(rs) && !HasId(rs, x.id)
    ensures UniqueIds(rs + [x])
  {
    AppendFreshKeepsKeysDistinct(rs, x, (r: Resume) => r.id);
  }

  /** Is the property empty: empty text or an empty list. */
  predicate IsEmptyValue(v: FieldValue) {
    match v
    case TextValue(s) => s == ""
    case JobsValue(j) => j == []
    case SchoolsValue(e) => e == []
    case ListValue(l) => l == []
  }

  /** The record `createResume` builds: its content properties are all empty. */
  function NewResume(id: string, now: string): (r: Resume)
    ensures r.id == id && r.lastModified == now
    ensures r.title == "New Resume" && r.template == "modern" && r.themeColor == "#3B82F6"
    ensures forall f :: f !in {IdField, TitleField, TemplateField, ThemeColorField, LastModifiedField}
                        ==> IsEmptyValue(Field(r, f))
  {
    Resume(id, "New Resume", "", "", "", "", "", [], [], [], [], [], [], "modern", "#3B82F6", now)
  }

  /** The job, school and lists of the sample resume. */
  const SampleJob: WorkExperience :=
    WorkExperience("1", "Tech Company", "Senior Software Engineer", "2020-01", "2024-01",
                   "Led development of scalable web applications using React and Node.js.")
  const SampleSchool: Education :=
    Education("1", "University of California", "Bachelor of Science in Computer Science",
              "2016-08", "2020-05")
  const SampleSkills: seq<string> := ["JavaScript", "React", "Node.js", "Python", "SQL"]
  const SampleCertifications: seq<string> := ["AWS Certified Developer"]
  const SampleLanguages: seq<string> := ["English", "Spanish"]
  const SampleHobbies: seq<string> := ["Photography", "Hiking"]

  /** The sample resume the provider is seeded with: id "1", stamped with the seeding
      time, with one job and one school. */
  function SampleResume(now: string): (r: Resume)
    ensures r.id == "1" && r.lastModified == now
    ensures r.template == "modern" && r.themeColor == "#3B82F6"
    ensures |r.workExperience| == 1 && |r.education| == 1
  {
    Resume(
      "1", "Software Engineer Resume",
      "John Doe", "john.doe@email.com", "(555) 123-4567", "San Francisco, CA",
      "Experienced software engineer with expertise in full-stack development.",
      [SampleJob], [SampleSchool],
      SampleSkills, SampleCertifications, SampleLanguages, SampleHobbies,
      "modern", "#3B82F6", now)
  }

  const SummaryText: string :=
    "Dynamic software engineer with 5+ years of experience in full-stack development. "
    + "Proven track record of delivering scalable web applications and leading cross-functional teams. "
    + "Passionate about emerging technologies and continuous learning."

  /** The bullet text as the source file stores it: a bullet sign that was mis-decoded
      into the three characters U+00E2 U+20AC U+00A2. */
  const BulletPointText: string :=
    "\U{E2}\U{20AC}\U{A2} Developed and maintained 15+ web applications using React, Node.js, "
    + "and MongoDB, resulting in 40% improved user engagement"

  const JobDescriptionText: string :=
    "Led development of e-commerce platform serving 10,000+ daily users, implementing "
    + "responsive design and optimizing performance for 50% faster load times"

  const FallbackText: string := "AI-generated content"

  /** The canned-response table of `generateAIContent`, with its fallback: every kind,
      known or not, yields non-empty text, and only the three table keys yield something
      other than the fallback. */
  function AIContent(kind: string): (text: string)
    ensures text != ""
    ensures text != FallbackText <==> kind in {"summary", "bulletPoint", "jobDescription"}
  {
    assert |FallbackText| == 20;
    assert |SummaryText| > 20 && |BulletPointText| > 20 && |JobDescriptionText| > 20;
    if kind == "summary" then SummaryText
    else if kind == "bulletPoint" then BulletPointText
    else if kind == "jobDescription" then JobDescriptionText
    else FallbackText
  }

  /** The store: the collection of resumes and the working copy being edited. */
  class ResumeProvider {
    var resumes: seq<Resume>
    var currentResume: Option<Resume>

    /** No two resumes in the collection share an id. */
    ghost predicate Valid()
      reads this
    {
      UniqueIds(resumes)
    }

    /** The state once the seeding effect has run: the sample resume alone, nothing open. */
    constructor (now: string)
      ensures Valid()
      ensures resumes == [SampleResume(now)] && currentResume == None
      ensures |resumes| == 1 && resumes[0].id == "1"
    {
      resumes := [SampleResume(now)];
      currentResume := None;
    }

    method LoadResume(id: string)
      modifies this`currentResume
      ensures resumes == old(resumes)
      ensures HasId(resumes, id) ==> currentResume == FindById(resumes, id)
      ensures !HasId(resumes, id) ==> currentResume == old(currentResume)
    {
      var found := FindById(resumes, id);
      if found.Some? {
        currentResume := found;
      }
    }

    method SaveResume(resume: Resume, now: string)
      modifies this
      ensures old(Valid()) ==> Valid()
      ensures resumes == ReplaceById(old(resumes), Stamp(resume, now))
      ensures currentResume == Some(Stamp(resume, now))
      ensures HasId(old(resumes), resume.id) ==> Stamp(resume, now) in resumes
      ensures !HasId(old(resumes), resume.id) ==> resumes == old(resumes)
    {
      var updated := Stamp(resume, now);
      ReplaceKeepsIds(resumes, updated);
      if HasId(resumes, resume.id) {
        ReplacePersists(resumes, updated);
      } else {
        ReplaceMissingId(resumes, updated);
      }
      resumes := ReplaceById(resumes, updated);
      currentResume := Some(updated);
    }

    method CreateResume(freshId: string, now: string) returns (id: string)
      modifies this
      ensures old(Valid()) && !HasId(old(resumes), freshId) ==> Valid()
      ensures id == freshId
      ensures resumes == old(resumes) + [NewResume(freshId, now)]
      ensures currentResume == Some(NewResume(freshId, now))
    {
      var created := NewResume(freshId, now);
      if Valid() && !HasId(resumes, freshId) {
        AppendFreshKeepsUniqueIds(resumes, created);
      }
      resumes := resumes + [created];
      currentResume := Some(created);
      id := created.id;
    }

    method DeleteResume(id: string)
      modifies this
      ensures old(Valid()) ==> Valid()
      ensures resumes == WithoutId(old(resumes), id)
      ensures old(Valid()) && HasId(old(resumes), id) ==> |resumes| == |old(resumes)| - 1
      ensures currentResume == if old(currentResume).Some? && old(currentResume).value.id == id
                               then None else old(currentResume)
    {
      if Valid() {
        WithoutIdKeepsUniqueIds(resumes, id);
        if HasId(resumes, id) {
          WithoutPresentId(resumes, id);
        }
      }
      resumes := WithoutId(resumes, id);
      if currentResume.Some? && currentResume.value.id == id {
        currentResume := None;
      }
    }

    method UpdateResume(updates: Patch)
      modifies this`currentResume
      ensures resumes == old(resumes)
      ensures currentResume == if old(currentResume).None? then None
                               else Some(Merge(old(currentResume).value, updates))
    {
      if currentResume.Some? {
        currentResume := Some(Merge(currentResume.value, updates));
      }
    }

    /** The mock generator: a synchronous lookup that changes neither field. */
    method GenerateAIContent(kind: string) returns (text: string)
      ensures text == AIContent(kind)
      ensures text != ""
    {
      text := AIContent(kind);
    }

    /** One firing of the auto-save timer, which runs only while a resume is open. */
    method AutoSaveTick(now: string)
      modifies this
      ensures old(Valid()) ==> Valid()
      ensures old(currentResume).None? ==> resumes == old(resumes) && currentResume == None
      ensures old(currentResume).Some? ==>
        resumes == ReplaceById(old(resumes), Stamp(old(currentResume).value, now)) &&
        currentResume == Some(Stamp(old(currentResume).value, now))
    {
      if currentResume.Some? {
        SaveResume(currentResume.value, now);
      }
    }
  }
}
