/** The four string-list editors (skills, certifications, languages, hobbies).
    They share one shape: an input buffer; "add" appends the trimmed buffer when it
    is not blank, clears the buffer and raises the unsaved-change signal; "remove"
    drops every entry equal to the given value. */
module ListSections {
  import opened Seqs
  import opened Text
  import opened ResumeContext

  datatype Section = Skills | Certifications | Languages | Hobbies

  /** The list a section edits. */
  function Entries(r: Resume, s: Section): seq<string> {
    match s
    case Skills => r.skills
    case Certifications => r.certifications
    case Languages => r.languages
    case Hobbies => r.hobbies
  }

  /** The resume property a section's list is stored under. */
  function SectionField(s: Section): ResumeField {
    match s
    case Skills => SkillsField
    case Certifications => CertificationsField
    case Languages => LanguagesField
    case Hobbies => HobbiesField
  }

  /** The update object `{ skills: xs }` (and so on) that a section hands to `updateResume`:
      it carries the section's own property and no other. */
  function EntriesPatch(s: Section, xs: seq<string>): (u: Patch)
    ensures PatchField(u, SectionField(s)) == Some(ListValue(xs))
    ensures forall f :: f != SectionField(s) ==> PatchField(u, f) == None
  {
    match s
    case Skills => NoChange.(skills := Some(xs))
    case Certifications => NoChange.(certifications := Some(xs))
    case Languages => NoChange.(languages := Some(xs))
    case Hobbies => NoChange.(hobbies := Some(xs))
  }

  /** Applying a section's update replaces that list and nothing else. */
  lemma MergeEntriesPatch(r: Resume, s: Section, xs: seq<string>)
    ensures Entries(Merge(r, EntriesPatch(s, xs)), s) == xs
    ensures forall t :: t != s ==> Entries(Merge(r, EntriesPatch(s, xs)), t) == Entries(r, t)
    ensures forall f :: f !in {SkillsField, CertificationsField, LanguagesField, HobbiesField}
                        ==> Field(Merge(r, EntriesPatch(s, xs)), f) == Field(r, f)
  {
  }

  /** `[...xs, input.trim()]` when the trimmed input is not empty; otherwise no change. */
  function AddTrimmed(xs: seq<string>, input: string): (r: seq<string>)
    ensures Trim(input) != "" ==> |r| == |xs| + 1 && r[..|xs|] == xs && r[|xs|] == Trim(input)
    ensures Trim(input) == "" ==> r == xs
  {
    if Trim(input) != "" then xs + [Trim(input)] else xs
  }

  /** `xs.filter(x => x !== value)`. */
  function RemoveAll(xs: seq<string>, value: string): (r: seq<string>)
    ensures value !in r
    ensures IsSubsequence(r, xs)
    ensures forall x :: x != value ==> multiset(r)[x] == multiset(xs)[x]
  {
    FilterCounts(xs, (x: string) => x != value);
    FilterMembers(xs, (x: string) => x != value);
    FilterIsSubsequence(xs, (x: string) => x != value);
    Filter(xs, (x: string) => x != value)
  }

  /** Every entry is non-empty and has no white space at either end. */
  ghost predicate AllClean(xs: seq<string>) {
    forall i :: 0 <= i < |xs| ==> xs[i] != "" && IsTrimmed(xs[i])
  }

  /** Adding keeps a clean list clean: whatever was typed, what lands in the list is
      non-empty and trimmed. */
  lemma AddKeepsClean(xs: seq<string>, input: string)
    requires AllClean(xs)
    ensures AllClean(AddTrimmed(xs, input))
  {
    var r := AddTrimmed(xs, input);
    forall i | 0 <= i < |r| ensures r[i] != "" && IsTrimmed(r[i]) {
      if i < |xs| { assert r[i] == r[..|xs|][i]; }
    }
  }

  /** Add does not deduplicate: the trimmed value occurs once more than before. */
  lemma AddCountsOneMore(xs: seq<string>, input: string)
    requires Trim(input) != ""
    ensures multiset(AddTrimmed(xs, input))[Trim(input)] == multiset(xs)[Trim(input)] + 1
  {
    assert AddTrimmed(xs, input) == xs + [Trim(input)];
  }

  /** Removing a value no entry equals is the identity. */
  lemma RemoveAbsent(xs: seq<string>, value: string)
    requires value !in xs
    ensures RemoveAll(xs, value) == xs
  {
    FilterAllKept(xs, (x: string) => x != value);
  }

  /** Removing twice is removing once. */
  lemma RemoveIdempotent(xs: seq<string>, value: string)
    ensures RemoveAll(RemoveAll(xs, value), value) == RemoveAll(xs, value)
  {
    FilterIdempotent(xs, (x: string) => x != value);
  }

  /** Removing what was just added undoes the add when the value was not there before. */
  lemma RemoveUndoesAdd(xs: seq<string>, input: string)
    requires Trim(input) !in xs
    ensures RemoveAll(AddTrimmed(xs, input), Trim(input)) == xs
  {
    var v := Trim(input);
    var keep := (x: string) => x != v;
    RemoveAbsent(xs, v);
    if v != "" {
      FilterAppend(xs, [v], keep);
      assert Filter([v], keep) == [];
    }
  }

  /** One list section: its input buffer (`newSkill`, `newCertification`, ...). */
  class ListEditor {
    const section: Section
    var buffer: string

    constructor (section: Section)
      ensures this.section == section && buffer == ""
    {
      this.section := section;
      buffer := "";
    }

    /** The input's change handler. */
    method Type(value: string)
      modifies this`buffer
      ensures buffer == value
    {
      buffer := value;
    }

    method HandleAdd(provider: ResumeProvider) returns (unsaved: bool)
      requires provider.currentResume.Some?
      modifies this`buffer, provider`currentResume
      ensures unsaved <==> Trim(old(buffer)) != ""
      ensures buffer == if unsaved then "" else old(buffer)
      ensures provider.resumes == old(provider.resumes)
      ensures provider.currentResume.Some?
      ensures Entries(provider.currentResume.value, section)
              == AddTrimmed(Entries(old(provider.currentResume.value), section), old(buffer))
      ensures forall t :: t != section ==>
        Entries(provider.currentResume.value, t) == Entries(old(provider.currentResume.value), t)
      ensures forall f :: f !in {SkillsField, CertificationsField, LanguagesField, HobbiesField} ==>
        Field(provider.currentResume.value, f) == Field(old(provider.currentResume.value), f)
    {
      var cur := provider.currentResume.value;
      var entry := Trim(buffer);
      if entry != "" {
        var added := Entries(cur, section) + [entry];
        MergeEntriesPatch(cur, section, added);
        provider.UpdateResume(EntriesPatch(section, added));
        buffer := "";
        unsaved := true;
      } else {
        unsaved := false;
      }
    }

    method HandleRemove(provider: ResumeProvider, value: string) returns (unsaved: bool)
      requires provider.currentResume.Some?
      modifies provider`currentResume
      ensures unsaved
      ensures provider.resumes == old(provider.resumes)
      ensures provider.currentResume.Some?
      ensures Entries(provider.currentResume.value, section)
              == RemoveAll(Entries(old(provider.currentResume.value), section), value)
      ensures forall t :: t != section ==>
        Entries(provider.currentResume.value, t) == Entries(old(provider.currentResume.value), t)
      ensures forall f :: f !in {SkillsField, CertificationsField, LanguagesField, HobbiesField} ==>
        Field(provider.currentResume.value, f) == Field(old(provider.currentResume.value), f)
    {
      var cur := provider.currentResume.value;
      var kept := RemoveAll(Entries(cur, section), value);
      MergeEntriesPatch(cur, section, kept);
      provider.UpdateResume(EntriesPatch(section, kept));
      unsaved := true;
    }
  }
}
