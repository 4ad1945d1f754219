/** The education editor: add a blank entry, set one property of the entries with
    a given id, delete by id. Each handler hands the new list to `updateResume`
    and raises the unsaved-change signal. */
module EducationSection {
  import opened Seqs
  import opened ResumeContext

  /** `keyof Education`. */
  datatype EducationKey = Id | School | Degree | StartDate | EndDate

  function Get(e: Education, f: EducationKey): string {
    match f
    case Id => e.id
    case School => e.school
    case Degree => e.degree
    case StartDate => e.startDate
    case EndDate => e.endDate
  }

  /** `{ ...e, [f]: v }`: property `f` becomes `v`, the others keep their values. */
  function Set(e: Education, f: EducationKey, v: string): (r: Education)
    ensures Get(r, f) == v
    ensures forall g :: g != f ==> Get(r, g) == Get(e, g)
  {
    match f
    case Id => e.(id := v)
    case School => e.(school := v)
    case Degree => e.(degree := v)
    case StartDate => e.(startDate := v)
    case EndDate => e.(endDate := v)
  }

  /** The entry "add" appends: the given id and every other property empty. */
  function Blank(id: string): (e: Education)
    ensures e.id == id
    ensures forall f :: f != Id ==> Get(e, f) == ""
  {
    Education(id, "", "", "", "")
  }

  ghost predicate UniqueIds(xs: seq<Education>) {
    KeysDistinct(xs, (e: Education) => e.id)
  }

  predicate HasId(xs: seq<Education>, id: string) {
    HasKey(xs, (e: Education) => e.id, id)
  }

  /** `[...xs, newEducation]`: the old entries, then one entry whose text is all empty. */
  function Add(xs: seq<Education>, newId: string): (r: seq<Education>)
    ensures |r| == |xs| + 1 && r[..|xs|] == xs
    ensures r[|xs|].id == newId && forall f :: f != Id ==> Get(r[|xs|], f) == ""
  {
    xs + [Blank(newId)]
  }

  /** `xs.map(edu => edu.id === id ? { ...edu, [f]: v } : edu)`. */
  function Update(xs: seq<Education>, id: string, f: EducationKey, v: string): (r: seq<Education>)
    ensures |r| == |xs|
    ensures forall i :: 0 <= i < |xs| ==> r[i] == if xs[i].id == id then Set(xs[i], f, v) else xs[i]
  {
    MapWhere(xs, (e: Education) => e.id == id, (e: Education) => Set(e, f, v))
  }

  /** `xs.filter(edu => edu.id !== id)`. */
  function Delete(xs: seq<Education>, id: string): (r: seq<Education>)
    ensures !HasId(r, id)
    ensures |r| <= |xs|
    ensures IsSubsequence(r, xs)
    ensures forall e :: e in xs && e.id != id ==> e in r
    ensures forall e: Education :: e.id != id ==> multiset(r)[e] == multiset(xs)[e]
  {
    FilterCounts(xs, (e: Education) => e.id != id);
    FilterMembers(xs, (e: Education) => e.id != id);
    FilterIsSubsequence(xs, (e: Education) => e.id != id);
    Filter(xs, (e: Education) => e.id != id)
  }

  /** Updating an id that no entry carries is the identity. */
  lemma UpdateMissingId(xs: seq<Education>, id: string, f: EducationKey, v: string)
    requires !HasId(xs, id)
    ensures Update(xs, id, f, v) == xs
  {
  }

  /** Updating any property but the id keeps every id in place, so ids stay distinct. */
  lemma UpdateKeepsIds(xs: seq<Education>, id: string, f: EducationKey, v: string)
    requires f != Id
    ensures forall i :: 0 <= i < |xs| ==> Update(xs, id, f, v)[i].id == xs[i].id
    ensures UniqueIds(xs) ==> UniqueIds(Update(xs, id, f, v))
  {
    var r := Update(xs, id, f, v);
    forall i | 0 <= i < |xs| ensures r[i].id == xs[i].id {
      assert Get(r[i], Id) == Get(xs[i], Id);
    }
  }

  /** Adding an entry with a fresh id keeps ids distinct. */
  lemma AddKeepsUniqueIds(xs: seq<Education>, newId: string)
    requires UniqueIds(xs) && !HasId(xs, newId)
    ensures UniqueIds(Add(xs, newId))
  {
    AppendFreshKeepsKeysDistinct(xs, Blank(newId), (e: Education) => e.id);
  }

  /** Deleting the id just added with a fresh id undoes the add. */
  lemma DeleteUndoesAdd(xs: seq<Education>, newId: string)
    requires !HasId(xs, newId)
    ensures Delete(Add(xs, newId), newId) == xs
  {
    FilterDropsAppended(xs, Blank(newId), (e: Education) => e.id != newId);
  }

  /** Deleting keeps ids distinct. */
  lemma DeleteKeepsUniqueIds(xs: seq<Education>, id: string)
    requires UniqueIds(xs)
    ensures UniqueIds(Delete(xs, id))
  {
    FilterKeepsKeysDistinct(xs, (e: Education) => e.id != id, (e: Education) => e.id);
  }

  method HandleAddEducation(provider: ResumeProvider, newId: string) returns (unsaved: bool)
    requires provider.currentResume.Some?
    modifies provider`currentResume
    ensures provider.resumes == old(provider.resumes)
    ensures provider.currentResume == Some(old(provider.currentResume.value).(
      education := Add(old(provider.currentResume.value.education), newId)))
    ensures unsaved
  {
    var cur := provider.currentResume.value;
    provider.UpdateResume(NoChange.(education := Some(Add(cur.education, newId))));
    unsaved := true;
  }

  method HandleUpdateEducation(provider: ResumeProvider, id: string, f: EducationKey, v: string)
    returns (unsaved: bool)
    requires provider.currentResume.Some?
    modifies provider`currentResume
    ensures provider.resumes == old(provider.resumes)
    ensures provider.currentResume == Some(old(provider.currentResume.value).(
      education := Update(old(provider.currentResume.value.education), id, f, v)))
    ensures unsaved
  {
    var cur := provider.currentResume.value;
    provider.UpdateResume(NoChange.(education := Some(Update(cur.education, id, f, v))));
    unsaved := true;
  }

  method HandleDeleteEducation(provider: ResumeProvider, id: string) returns (unsaved: bool)
    requires provider.currentResume.Some?
    modifies provider`currentResume
    ensures provider.resumes == old(provider.resumes)
    ensures provider.currentResume == Some(old(provider.currentResume.value).(
      education := Delete(old(provider.currentResume.value.education), id)))
    ensures unsaved
  {
    var cur := provider.currentResume.value;
    provider.UpdateResume(NoChange.(education := Some(Delete(cur.education, id))));
    unsaved := true;
  }
}
