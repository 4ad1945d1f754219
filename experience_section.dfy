/** The work-experience editor: add a blank entry, set one property of the entries
    with a given id, delete by id, and the canned rewrite of a description. Each
    handler hands the new list to `updateResume` and raises the unsaved-change signal. */
module ExperienceSection {
  import opened Seqs
  import opened ResumeContext

  /** `keyof WorkExperience`. */
  datatype ExperienceKey = Id | Company | Role | StartDate | EndDate | Description

  function Get(e: WorkExperience, f: ExperienceKey): string {
    match f
    case Id => e.id
    case Company => e.company
    case Role => e.role
    case StartDate => e.startDate
    case EndDate => e.endDate
    case Description => e.description
  }

  /** `{ ...e, [f]: v }`: property `f` becomes `v`, the others keep their values. */
  function Set(e: WorkExperience, f: ExperienceKey, v: string): (r: WorkExperience)
    ensures Get(r, f) == v
    ensures forall g :: g != f ==> Get(r, g) == Get(e, g)
  {
    match f
    case Id => e.(id := v)
    case Company => e.(company := v)
    case Role => e.(role := v)
    case StartDate => e.(startDate := v)
    case EndDate => e.(endDate := v)
    case Description => e.(description := v)
  }

  /** The entry "add" appends: the given id and every other property empty. */
  function Blank(id: string): (e: WorkExperience)
    ensures e.id == id
    ensures forall f :: f != Id ==> Get(e, f) == ""
  {
    WorkExperience(id, "", "", "", "", "")
  }

  ghost predicate UniqueIds(xs: seq<WorkExperience>) {
    KeysDistinct(xs, (e: WorkExperience) => e.id)
  }

  predicate HasId(xs: seq<WorkExperience>, id: string) {
    HasKey(xs, (e: WorkExperience) => e.id, id)
  }

  /** `[...xs, newExperience]`: the old entries, then one entry whose text is all empty. */
  function Add(xs: seq<WorkExperience>, newId: string): (r: seq<WorkExperience>)
    ensures |r| == |xs| + 1 && r[..|xs|] == xs
    ensures r[|xs|].id == newId && forall f :: f != Id ==> Get(r[|xs|], f) == ""
  {
    xs + [Blank(newId)]
  }

  /** `xs.map(exp => exp.id === id ? { ...exp, [f]: v } : exp)`. */
  function Update(xs: seq<WorkExperience>, id: string, f: ExperienceKey, v: string): (r: seq<WorkExperience>)
    ensures |r| == |xs|
    ensures forall i :: 0 <= i < |xs| ==> r[i] == if xs[i].id == id then Set(xs[i], f, v) else xs[i]
  {
    MapWhere(xs, (e: WorkExperience) => e.id == id, (e: WorkExperience) => Set(e, f, v))
  }

  /** `xs.filter(exp => exp.id !== id)`. */
  function Delete(xs: seq<WorkExperience>, id: string): (r: seq<WorkExperience>)
    ensures !HasId(r, id)
    ensures |r| <= |xs|
    ensures IsSubsequence(r, xs)
    ensures forall e :: e in xs && e.id != id ==> e in r
    ensures forall e: WorkExperience :: e.id != id ==> multiset(r)[e] == multiset(xs)[e]
  {
    FilterCounts(xs, (e: WorkExperience) => e.id != id);
    FilterMembers(xs, (e: WorkExperience) => e.id != id);
    FilterIsSubsequence(xs, (e: WorkExperience) => e.id != id);
    Filter(xs, (e: WorkExperience) => e.id != id)
  }

  /** The rewrite touches only the description of the entries carrying `id`, which
      becomes the canned bullet point; every other entry and property stays. */
  function AIRewrite(xs: seq<WorkExperience>, id: string): (r: seq<WorkExperience>)
    ensures |r| == |xs|
    ensures forall i :: 0 <= i < |xs| && xs[i].id == id ==>
      r[i].description == BulletPointText &&
      forall g :: g != Description ==> Get(r[i], g) == Get(xs[i], g)
    ensures forall i :: 0 <= i < |xs| && xs[i].id != id ==> r[i] == xs[i]
  {
    Update(xs, id, Description, AIContent("bulletPoint"))
  }

  /** Updating an id that no entry carries is the identity. */
  lemma UpdateMissingId(xs: seq<WorkExperience>, id: string, f: ExperienceKey, v: string)
    requires !HasId(xs, id)
    ensures Update(xs, id, f, v) == xs
  {
  }

  /** Updating any property but the id keeps every id in place, so ids stay distinct. */
  lemma UpdateKeepsIds(xs: seq<WorkExperience>, id: string, f: ExperienceKey, v: string)
    requires f != Id
    ensures forall i :: 0 <= i < |xs| ==> Update(xs, id, f, v)[i].id == xs[i].id
    ensures UniqueIds(xs) ==> UniqueIds(Update(xs, id, f, v))
  {
    var r := Update(xs, id, f, v);
    forall i | 0 <= i < |xs| ensures r[i].id == xs[i].id {
      assert Get(r[i], Id) == Get(xs[i], Id);
    }
  }

  /** The last of two writes to the same property wins. */
  lemma UpdateLastWriteWins(xs: seq<WorkExperience>, id: string, f: ExperienceKey, v1: string, v2: string)
    requires f != Id
    ensures Update(Update(xs, id, f, v1), id, f, v2) == Update(xs, id, f, v2)
  {
    var once := Update(xs, id, f, v1);
    UpdateKeepsIds(xs, id, f, v1);
    forall i | 0 <= i < |xs| ensures Update(once, id, f, v2)[i] == Update(xs, id, f, v2)[i] {
      if xs[i].id == id {
        var a, b := Set(once[i], f, v2), Set(xs[i], f, v2);
        forall g ensures Get(a, g) == Get(b, g) {
        }
        assert Get(a, Id) == Get(b, Id) && Get(a, Company) == Get(b, Company);
        assert Get(a, Role) == Get(b, Role) && Get(a, StartDate) == Get(b, StartDate);
        assert Get(a, EndDate) == Get(b, EndDate) && Get(a, Description) == Get(b, Description);
      }
    }
  }

  /** Adding an entry with a fresh id keeps ids distinct. */
  lemma AddKeepsUniqueIds(xs: seq<WorkExperience>, newId: string)
    requires UniqueIds(xs) && !HasId(xs, newId)
    ensures UniqueIds(Add(xs, newId))
  {
    AppendFreshKeepsKeysDistinct(xs, Blank(newId), (e: WorkExperience) => e.id);
  }

  /** Deleting the id just added with a fresh id undoes the add. */
  lemma DeleteUndoesAdd(xs: seq<WorkExperience>, newId: string)
    requires !HasId(xs, newId)
    ensures Delete(Add(xs, newId), newId) == xs
  {
    FilterDropsAppended(xs, Blank(newId), (e: WorkExperience) => e.id != newId);
  }

  /** Deleting keeps ids distinct. */
  lemma DeleteKeepsUniqueIds(xs: seq<WorkExperience>, id: string)
    requires UniqueIds(xs)
    ensures UniqueIds(Delete(xs, id))
  {
    FilterKeepsKeysDistinct(xs, (e: WorkExperience) => e.id != id, (e: WorkExperience) => e.id);
  }

  /** Deleting twice is deleting once. */
  lemma DeleteIdempotent(xs: seq<WorkExperience>, id: string)
    ensures Delete(Delete(xs, id), id) == Delete(xs, id)
  {
    FilterIdempotent(xs, (e: WorkExperience) => e.id != id);
  }

  method HandleAddExperience(provider: ResumeProvider, newId: string) returns (unsaved: bool)
    requires provider.currentResume.Some?
    modifies provider`currentResume
    ensures provider.resumes == old(provider.resumes)
    ensures provider.currentResume == Some(old(provider.currentResume.value).(
      workExperience := Add(old(provider.currentResume.value.workExperience), newId)))
    ensures unsaved
  {
    var cur := provider.currentResume.value;
    provider.UpdateResume(NoChange.(workExperience := Some(Add(cur.workExperience, newId))));
    unsaved := true;
  }

  method HandleUpdateExperience(provider: ResumeProvider, id: string, f: ExperienceKey, v: string)
    returns (unsaved: bool)
    requires provider.currentResume.Some?
    modifies provider`currentResume
    ensures provider.resumes == old(provider.resumes)
    ensures provider.currentResume == Some(old(provider.currentResume.value).(
      workExperience := Update(old(provider.currentResume.value.workExperience), id, f, v)))
    ensures unsaved
  {
    var cur := provider.currentResume.value;
    provider.UpdateResume(NoChange.(workExperience := Some(Update(cur.workExperience, id, f, v))));
    unsaved := true;
  }

  method HandleDeleteExperience(provider: ResumeProvider, id: string) returns (unsaved: bool)
    requires provider.currentResume.Some?
    modifies provider`currentResume
    ensures provider.resumes == old(provider.resumes)
    ensures provider.currentResume == Some(old(provider.currentResume.value).(
      workExperience := Delete(old(provider.currentResume.value.workExperience), id)))
    ensures unsaved
  {
    var cur := provider.currentResume.value;
    provider.UpdateResume(NoChange.(workExperience := Some(Delete(cur.workExperience, id))));
    unsaved := true;
  }

  /** Fetch the canned bullet point, then update the description through the update handler. */
  method HandleAIRewrite(provider: ResumeProvider, id: string) returns (unsaved: bool)
    requires provider.currentResume.Some?
    modifies provider`currentResume
    ensures provider.resumes == old(provider.resumes)
    ensures provider.currentResume == Some(old(provider.currentResume.value).(
      workExperience := AIRewrite(old(provider.currentResume.value.workExperience), id)))
    ensures unsaved
  {
    var text := provider.GenerateAIContent("bulletPoint");
    unsaved := HandleUpdateExperience(provider, id, Description, text);
  }
}
