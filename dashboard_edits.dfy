/**
 * The admin editor's updaters: each is the body of one `setData(prev => next)`
 * call, a copy-on-write transformation of the portfolio document that
 * replaces one field (one category, one list, one record) and shares the rest.
 */
module Editing {
  import opened Wrappers
  import opened JsString
  import opened PortfolioTypes
  import opened Records

  // ---------------------------------------------------------------- update

  /** A `Partial<PortfolioData>`: the top-level fields an `update` call supplies. */
  datatype Patch = Patch(
    name: Option<string>,
    title: Option<string>,
    experienceYears: Option<string>,
    intro: Option<string>,
    skills: Option<map<string, seq<string>>>,
    projects: Option<seq<Project>>,
    experience: Option<seq<ExperienceEntry>>,
    contact: Option<Contact>)

  const NoChanges := Patch(None, None, None, None, None, None, None, None)

  /** `update(updates)`: `{ ...prev, ...updates }`. */
  function Update(d: PortfolioData, u: Patch): PortfolioData {
    PortfolioData(
      u.name.GetOr(d.name), u.title.GetOr(d.title),
      u.experienceYears.GetOr(d.experienceYears), u.intro.GetOr(d.intro),
      u.skills.GetOr(d.skills), u.projects.GetOr(d.projects),
      u.experience.GetOr(d.experience), u.contact.GetOr(d.contact))
  }

  /** `{ ...u, ...v }`: the later patch wins field by field. */
  function MergePatches(u: Patch, v: Patch): Patch {
    Patch(
      if v.name.Some? then v.name else u.name,
      if v.title.Some? then v.title else u.title,
      if v.experienceYears.Some? then v.experienceYears else u.experienceYears,
      if v.intro.Some? then v.intro else u.intro,
      if v.skills.Some? then v.skills else u.skills,
      if v.projects.Some? then v.projects else u.projects,
      if v.experience.Some? then v.experience else u.experience,
      if v.contact.Some? then v.contact else u.contact)
  }

  /**
   * The shallow merge keeps every field the patch does not name, takes every
   * field it does, and an empty patch changes nothing.
   */
  lemma UpdateKeepsUnpatched(d: PortfolioData, u: Patch)
    ensures u.name.None? ==> Update(d, u).name == d.name
    ensures u.title.None? ==> Update(d, u).title == d.title
    ensures u.experienceYears.None? ==> Update(d, u).experienceYears == d.experienceYears
    ensures u.intro.None? ==> Update(d, u).intro == d.intro
    ensures u.skills.None? ==> Update(d, u).skills == d.skills
    ensures u.projects.None? ==> Update(d, u).projects == d.projects
    ensures u.experience.None? ==> Update(d, u).experience == d.experience
    ensures u.contact.None? ==> Update(d, u).contact == d.contact
    ensures u.name.Some? ==> Update(d, u).name == u.name.value
    ensures u.title.Some? ==> Update(d, u).title == u.title.value
    ensures u.experienceYears.Some? ==> Update(d, u).experienceYears == u.experienceYears.value
    ensures u.intro.Some? ==> Update(d, u).intro == u.intro.value
    ensures u.skills.Some? ==> Update(d, u).skills == u.skills.value
    ensures u.projects.Some? ==> Update(d, u).projects == u.projects.value
    ensures u.experience.Some? ==> Update(d, u).experience == u.experience.value
    ensures u.contact.Some? ==> Update(d, u).contact == u.contact.value
    ensures Update(d, NoChanges) == d
  {
  }

  /** Two successive updates are one update with the merged patch, and repeating an update is harmless. */
  lemma UpdateComposes(d: PortfolioData, u: Patch, v: Patch)
    ensures Update(Update(d, u), v) == Update(d, MergePatches(u, v))
    ensures Update(Update(d, u), u) == Update(d, u)
  {
  }

  // ---------------------------------------------------------------- contact

  datatype ContactField = Email(email: string) | GitHub(github: string) | LinkedIn(linkedin: string)

  /**
   * The contact inputs: `update({ contact: { ...data.contact, <field>: value } })`.
   * Only the named contact field changes; every other field of the document is kept.
   */
  function EditContact(d: PortfolioData, f: ContactField): (r: PortfolioData)
    ensures r == d.(contact := r.contact)
    ensures r.contact.email == (if f.Email? then f.email else d.contact.email)
    ensures r.contact.github == (if f.GitHub? then f.github else d.contact.github)
    ensures r.contact.linkedin == (if f.LinkedIn? then f.linkedin else d.contact.linkedin)
  {
    var c := match f
      case Email(v) => d.contact.(email := v)
      case GitHub(v) => d.contact.(github := v)
      case LinkedIn(v) => d.contact.(linkedin := v);
    Update(d, NoChanges.(contact := Some(c)))
  }

  // ---------------------------------------------------------------- skills

  /** The chips of `category`, `prev.skills[category] ?? []`. */
  function SkillsOf(d: PortfolioData, category: string): seq<string> {
    if category in d.skills then d.skills[category] else []
  }

  /** The name `prompt(...)?.trim()` yields: empty when the dialog is cancelled. */
  function PromptedName(answer: Option<string>): string {
    if answer.Some? then Trim(answer.value) else ""
  }

  /**
   * `addSkillCategory`, with the existence test read as "is already a
   * category": nothing changes for an empty or existing name; otherwise the
   * name is added with no chips and every other category is kept.
   */
  function AddSkillCategory(d: PortfolioData, answer: Option<string>): (r: PortfolioData)
    ensures PromptedName(answer) == "" || PromptedName(answer) in d.skills ==> r == d
    ensures PromptedName(answer) != "" && PromptedName(answer) !in d.skills ==>
      && r == d.(skills := r.skills)
      && r.skills.Keys == d.skills.Keys + {PromptedName(answer)}
      && r.skills[PromptedName(answer)] == []
      && forall k | k in d.skills :: r.skills[k] == d.skills[k]
  {
    var name := PromptedName(answer);
    if name == "" || name in d.skills then d
    else d.(skills := d.skills[name := []])
  }

  /**
   * The names every plain object inherits from `Object.prototype`; looking
   * one of them up on the skills record yields a function or an object, which
   * is truthy.
   */
  const InheritedNames: set<string> := {
    "constructor", "hasOwnProperty", "isPrototypeOf", "propertyIsEnumerable",
    "toLocaleString", "toString", "valueOf", "__proto__",
    "__defineGetter__", "__defineSetter__", "__lookupGetter__", "__lookupSetter__"}

  /**
   * `addSkillCategory` as written: the existence test is a property lookup,
   * truthy for an existing category and also for an inherited name. Off the
   * inherited names it agrees with the corrected version.
   */
  function AddSkillCategoryAsWritten(d: PortfolioData, answer: Option<string>): (r: PortfolioData)
    ensures PromptedName(answer) in InheritedNames ==> r == d
    ensures PromptedName(answer) !in InheritedNames ==> r == AddSkillCategory(d, answer)
  {
    var name := PromptedName(answer);
    if name == "" || name in d.skills || name in InheritedNames then d
    else d.(skills := d.skills[name := []])
  }

  /**
   * Where the two differ: a category called `constructor` (or `toString`,
   * ...) can never be added by the code as written, although it is not a
   * category yet, while the corrected guard adds it.
   */
  lemma InheritedCategoryNameIsRefused(d: PortfolioData)
    requires "constructor" !in d.skills
    ensures AddSkillCategoryAsWritten(d, Some("constructor")) == d
    ensures AddSkillCategory(d, Some("constructor")) != d
  {
    PromptedConstructor();
    assert "constructor" in InheritedNames;
    assert "constructor" in AddSkillCategory(d, Some("constructor")).skills;
  }

  /** Answering the prompt with `constructor` names the category `constructor`. */
  lemma PromptedConstructor()
    ensures PromptedName(Some("constructor")) == "constructor"
  {
    var name := "constructor";
    assert !IsSpace(name[0]) && !IsSpace(name[|name| - 1]);
    TrimUnpadded(name);
  }

  /** `removeSkillCategory`: exactly that key goes; every other category and field is kept. */
  function RemoveSkillCategory(d: PortfolioData, category: string): (r: PortfolioData)
    ensures category !in r.skills
    ensures forall k | k != category :: (k in r.skills <==> k in d.skills)
                                        && (k in d.skills ==> r.skills[k] == d.skills[k])
    ensures r == d.(skills := r.skills)
  {
    d.(skills := d.skills - {category})
  }

  /**
   * The rename updater: the old key goes, the new key maps to the old key's
   * list (overwriting a category of that name), and every other category is
   * kept. The category is one of the rendered entries, so it is present.
   */
  function RenameSkillCategory(d: PortfolioData, category: string, newName: string): (r: PortfolioData)
    requires category in d.skills
    ensures newName != category ==> category !in r.skills
    ensures newName in r.skills && r.skills[newName] == d.skills[category]
    ensures forall k | k != category && k != newName :: (k in r.skills <==> k in d.skills)
                                                        && (k in d.skills ==> r.skills[k] == d.skills[k])
    ensures r.skills.Keys == d.skills.Keys - {category} + {newName}
    ensures r == d.(skills := r.skills)
  {
    d.(skills := (d.skills - {category})[newName := d.skills[category]])
  }

  /** The name the category input commits on blur: the draft (or the old name) trimmed. */
  function RenameTarget(category: string, draft: map<string, string>): string {
    Trim(if category in draft then draft[category] else category)
  }

  /** The chip `onAdd` of a category: the value goes to the end of that list, other lists are kept. */
  function AddSkill(d: PortfolioData, category: string, value: string): (r: PortfolioData)
    ensures category in r.skills && r.skills[category] == SkillsOf(d, category) + [value]
    ensures forall k | k != category :: (k in r.skills <==> k in d.skills)
                                        && (k in d.skills ==> r.skills[k] == d.skills[k])
    ensures r == d.(skills := r.skills)
  {
    d.(skills := d.skills[category := SkillsOf(d, category) + [value]])
  }

  /**
   * The chip `onRemove` of a category: position `index` is deleted and the
   * rest keep their order; an index outside the list leaves it as it was.
   */
  function RemoveSkill(d: PortfolioData, category: string, index: int): (r: PortfolioData)
    ensures category in r.skills
    ensures 0 <= index < |SkillsOf(d, category)| ==>
      r.skills[category] == SkillsOf(d, category)[..index] + SkillsOf(d, category)[index + 1..]
    ensures !(0 <= index < |SkillsOf(d, category)|) ==> r.skills[category] == SkillsOf(d, category)
    ensures forall k | k != category :: (k in r.skills <==> k in d.skills)
                                        && (k in d.skills ==> r.skills[k] == d.skills[k])
    ensures r == d.(skills := r.skills)
  {
    DropIndexRemovesExactlyOne(SkillsOf(d, category), index);
    d.(skills := d.skills[category := DropIndex(SkillsOf(d, category), index)])
  }

  /** A sample rename: `Frontend` becomes `Client` and keeps its chips. */
  lemma RenameFrontendToClient(d: PortfolioData)
    requires d.skills == map["Frontend" := ["TS", "CSS"]]
    ensures RenameSkillCategory(d, "Frontend", "Client").skills == map["Client" := ["TS", "CSS"]]
  {
    var r := RenameSkillCategory(d, "Frontend", "Client");
    assert r.skills.Keys == {"Client"};
  }

  // ---------------------------------------------------------------- projects

  /** The record `addProject` inserts: empty strings and lists, and the given id. */
  function BlankProject(id: string): Project {
    Project(id, "", "", [], "", Some(""), Some(""))
  }

  /** `addProject`: one blank record in front, the old list after it unchanged. */
  function AddProject(d: PortfolioData, id: string): (r: PortfolioData)
    ensures |r.projects| == |d.projects| + 1
    ensures r.projects[0] == BlankProject(id) && r.projects[1..] == d.projects
    ensures r == d.(projects := r.projects)
  {
    d.(projects := [BlankProject(id)] + d.projects)
  }

  /** `removeProject`: every record with that id goes, every other stays. */
  function RemoveProject(d: PortfolioData, id: string): (r: PortfolioData)
    ensures forall p | p in r.projects :: p in d.projects && p.id != id
    ensures forall i | 0 <= i < |d.projects| && d.projects[i].id != id :: d.projects[i] in r.projects
    ensures r == d.(projects := r.projects)
  {
    RemoveByIdMembers(d.projects, ProjectId, id);
    d.(projects := RemoveById(d.projects, ProjectId, id))
  }

  /** One input of a project card. */
  datatype ProjectField =
    | Title(title: string)
    | Description(description: string)
    | TechStack(techStack: seq<string>)
    | ProjectRole(role: string)
    | Image(image: string)
    | Link(link: string)

  /** `{ ...p, <field>: value }`: the id is never among the edited fields. */
  function WithProjectField(p: Project, f: ProjectField): (r: Project)
    ensures r.id == p.id
  {
    match f
    case Title(v) => p.(title := v)
    case Description(v) => p.(description := v)
    case TechStack(v) => p.(techStack := v)
    case ProjectRole(v) => p.(role := v)
    case Image(v) => p.(image := Some(v))
    case Link(v) => p.(link := Some(v))
  }

  /** A project input: records with that id get the field, all other records are identical. */
  function EditProject(d: PortfolioData, id: string, f: ProjectField): (r: PortfolioData)
    ensures |r.projects| == |d.projects|
    ensures forall i | 0 <= i < |d.projects| ::
              r.projects[i] == if d.projects[i].id == id then WithProjectField(d.projects[i], f) else d.projects[i]
    ensures r == d.(projects := r.projects)
  {
    d.(projects := UpdateById(d.projects, ProjectId, id, p => WithProjectField(p, f)))
  }

  /** The tech stack of the first project with that id, `find(...)?.techStack ?? []`. */
  function TechStackOf(d: PortfolioData, id: string): seq<string> {
    match FindById(d.projects, ProjectId, id)
    case Some(p) => p.techStack
    case None => []
  }

  /** The tech-stack chip `onAdd`. */
  function AddTechStack(d: PortfolioData, id: string, value: string): PortfolioData {
    EditProject(d, id, TechStack(TechStackOf(d, id) + [value]))
  }

  /** The tech-stack chip `onRemove`. */
  function RemoveTechStack(d: PortfolioData, id: string, index: int): PortfolioData {
    EditProject(d, id, TechStack(DropIndex(TechStackOf(d, id), index)))
  }

  /** A blank record with an id not yet in use keeps the project ids unique. */
  lemma AddProjectKeepsIdsUnique(d: PortfolioData, id: string)
    requires UniqueIds(d.projects, ProjectId)
    requires forall i | 0 <= i < |d.projects| :: d.projects[i].id != id
    ensures UniqueIds(AddProject(d, id).projects, ProjectId)
  {
    var r := AddProject(d, id).projects;
    forall i, j | 0 <= i < j < |r| ensures ProjectId(r[i]) != ProjectId(r[j]) {
      assert r[j] == d.projects[j - 1];
      if i > 0 {
        assert r[i] == d.projects[i - 1];
      }
    }
  }

  /** With unique ids, removing a project deletes exactly that record and keeps the others in order. */
  lemma RemoveProjectAt(d: PortfolioData, k: nat)
    requires UniqueIds(d.projects, ProjectId)
    requires k < |d.projects|
    ensures RemoveProject(d, d.projects[k].id).projects == d.projects[..k] + d.projects[k + 1..]
    ensures UniqueIds(RemoveProject(d, d.projects[k].id).projects, ProjectId)
  {
    RemoveByIdAt(d.projects, ProjectId, k);
    RemoveByIdKeepsUnique(d.projects, ProjectId, d.projects[k].id);
  }

  /** A field edit never changes an id, so the project ids stay as they were. */
  lemma EditProjectKeepsIds(d: PortfolioData, id: string, f: ProjectField)
    ensures forall i | 0 <= i < |d.projects| :: EditProject(d, id, f).projects[i].id == d.projects[i].id
    ensures UniqueIds(EditProject(d, id, f).projects, ProjectId) <==> UniqueIds(d.projects, ProjectId)
  {
    UpdateByIdKeepsKeys(d.projects, ProjectId, id, p => WithProjectField(p, f));
  }

  /** With unique ids, editing the project at position `k` replaces exactly that project. */
  lemma EditProjectAt(d: PortfolioData, k: nat, f: ProjectField)
    requires UniqueIds(d.projects, ProjectId)
    requires k < |d.projects|
    ensures EditProject(d, d.projects[k].id, f) == d.(projects := d.projects[k := WithProjectField(d.projects[k], f)])
  {
    var s, id := d.projects, d.projects[k].id;
    var r := EditProject(d, id, f).projects;
    forall i | 0 <= i < |s| ensures r[i] == s[k := WithProjectField(s[k], f)][i] {
      if i != k {
        assert ProjectId(s[i]) != ProjectId(s[k]);
      }
    }
    assert r == s[k := WithProjectField(s[k], f)];
  }

  /** With unique ids, the techStack chip `onAdd` appends the value to that project's list and changes nothing else. */
  lemma AddTechStackAt(d: PortfolioData, k: nat, value: string)
    requires UniqueIds(d.projects, ProjectId)
    requires k < |d.projects|
    ensures var x := d.projects[k];
      AddTechStack(d, x.id, value) == d.(projects := d.projects[k := x.(techStack := x.techStack + [value])])
  {
    var x := d.projects[k];
    FindByIdUnique(d.projects, ProjectId, k);
    assert TechStackOf(d, x.id) == x.techStack;
    var v := x.techStack + [value];
    assert WithProjectField(x, TechStack(v)) == x.(techStack := v);
    EditProjectAt(d, k, TechStack(v));
  }

  /**
   * With unique ids, the techStack chip `onRemove` deletes position `index`
   * of that project's list (or nothing, out of range) and changes nothing else.
   */
  lemma RemoveTechStackAt(d: PortfolioData, k: nat, index: int)
    requires UniqueIds(d.projects, ProjectId)
    requires k < |d.projects|
    ensures var x := d.projects[k];
      var kept := if 0 <= index < |x.techStack| then x.techStack[..index] + x.techStack[index + 1..] else x.techStack;
      RemoveTechStack(d, x.id, index) == d.(projects := d.projects[k := x.(techStack := kept)])
  {
    var x := d.projects[k];
    FindByIdUnique(d.projects, ProjectId, k);
    assert TechStackOf(d, x.id) == x.techStack;
    var v := DropIndex(x.techStack, index);
    DropIndexRemovesExactlyOne(x.techStack, index);
    assert WithProjectField(x, TechStack(v)) == x.(techStack := v);
    EditProjectAt(d, k, TechStack(v));
  }


  /** A chip added under an id no project carries changes nothing. */
  lemma AddTechStackUnknownId(d: PortfolioData, id: string, value: string)
    requires forall i | 0 <= i < |d.projects| :: d.projects[i].id != id
    ensures AddTechStack(d, id, value) == d
  {
    assert AddTechStack(d, id, value).projects == d.projects;
  }

  // ---------------------------------------------------------------- experience

  /** The record `addExperience` inserts. */
  function BlankExperience(id: string): ExperienceEntry {
    ExperienceEntry(id, "", "", "", [])
  }

  /** `addExperience`: one blank entry in front, the old list after it unchanged. */
  function AddExperience(d: PortfolioData, id: string): (r: PortfolioData)
    ensures |r.experience| == |d.experience| + 1
    ensures r.experience[0] == BlankExperience(id) && r.experience[1..] == d.experience
    ensures r == d.(experience := r.experience)
  {
    d.(experience := [BlankExperience(id)] + d.experience)
  }

  /** `removeExperience`: every entry with that id goes, every other stays. */
  function RemoveExperience(d: PortfolioData, id: string): (r: PortfolioData)
    ensures forall e | e in r.experience :: e in d.experience && e.id != id
    ensures forall i | 0 <= i < |d.experience| && d.experience[i].id != id :: d.experience[i] in r.experience
    ensures r == d.(experience := r.experience)
  {
    RemoveByIdMembers(d.experience, ExperienceId, id);
    d.(experience := RemoveById(d.experience, ExperienceId, id))
  }

  /** One input of an experience card. */
  datatype ExperienceField =
    | Company(company: string)
    | ExperienceRole(role: string)
    | Period(period: string)
    | Highlights(highlights: seq<string>)

  function WithExperienceField(e: ExperienceEntry, f: ExperienceField): (r: ExperienceEntry)
    ensures r.id == e.id
  {
    match f
    case Company(v) => e.(company := v)
    case ExperienceRole(v) => e.(role := v)
    case Period(v) => e.(period := v)
    case Highlights(v) => e.(highlights := v)
  }

  /** An experience input: entries with that id get the field, all other entries are identical. */
  function EditExperience(d: PortfolioData, id: string, f: ExperienceField): (r: PortfolioData)
    ensures |r.experience| == |d.experience|
    ensures forall i | 0 <= i < |d.experience| ::
              r.experience[i] == if d.experience[i].id == id then WithExperienceField(d.experience[i], f) else d.experience[i]
    ensures r == d.(experience := r.experience)
  {
    d.(experience := UpdateById(d.experience, ExperienceId, id, e => WithExperienceField(e, f)))
  }

  function HighlightsOf(d: PortfolioData, id: string): seq<string> {
    match FindById(d.experience, ExperienceId, id)
    case Some(e) => e.highlights
    case None => []
  }

  /** The highlight chip `onAdd`. */
  function AddHighlight(d: PortfolioData, id: string, value: string): PortfolioData {
    EditExperience(d, id, Highlights(HighlightsOf(d, id) + [value]))
  }

  /** The highlight chip `onRemove`. */
  function RemoveHighlight(d: PortfolioData, id: string, index: int): PortfolioData {
    EditExperience(d, id, Highlights(DropIndex(HighlightsOf(d, id), index)))
  }

  /** A blank entry with an id not yet in use keeps the experience ids unique. */
  lemma AddExperienceKeepsIdsUnique(d: PortfolioData, id: string)
    requires UniqueIds(d.experience, ExperienceId)
    requires forall i | 0 <= i < |d.experience| :: d.experience[i].id != id
    ensures UniqueIds(AddExperience(d, id).experience, ExperienceId)
  {
    var r := AddExperience(d, id).experience;
    forall i, j | 0 <= i < j < |r| ensures ExperienceId(r[i]) != ExperienceId(r[j]) {
      assert r[j] == d.experience[j - 1];
      if i > 0 {
        assert r[i] == d.experience[i - 1];
      }
    }
  }

  /** With unique ids, removing an entry deletes exactly that entry and keeps the others in order. */
  lemma RemoveExperienceAt(d: PortfolioData, k: nat)
    requires UniqueIds(d.experience, ExperienceId)
    requires k < |d.experience|
    ensures RemoveExperience(d, d.experience[k].id).experience == d.experience[..k] + d.experience[k + 1..]
    ensures UniqueIds(RemoveExperience(d, d.experience[k].id).experience, ExperienceId)
  {
    RemoveByIdAt(d.experience, ExperienceId, k);
    RemoveByIdKeepsUnique(d.experience, ExperienceId, d.experience[k].id);
  }

  /** A field edit never changes an id, so the experience ids stay as they were. */
  lemma EditExperienceKeepsIds(d: PortfolioData, id: string, f: ExperienceField)
    ensures forall i | 0 <= i < |d.experience| :: EditExperience(d, id, f).experience[i].id == d.experience[i].id
    ensures UniqueIds(EditExperience(d, id, f).experience, ExperienceId) <==> UniqueIds(d.experience, ExperienceId)
  {
    UpdateByIdKeepsKeys(d.experience, ExperienceId, id, e => WithExperienceField(e, f));
  }

  /** With unique ids, editing the entry at position `k` replaces exactly that entry. */
  lemma EditExperienceAt(d: PortfolioData, k: nat, f: ExperienceField)
    requires UniqueIds(d.experience, ExperienceId)
    requires k < |d.experience|
    ensures EditExperience(d, d.experience[k].id, f) == d.(experience := d.experience[k := WithExperienceField(d.experience[k], f)])
  {
    var s, id := d.experience, d.experience[k].id;
    var r := EditExperience(d, id, f).experience;
    forall i | 0 <= i < |s| ensures r[i] == s[k := WithExperienceField(s[k], f)][i] {
      if i != k {
        assert ExperienceId(s[i]) != ExperienceId(s[k]);
      }
    }
    assert r == s[k := WithExperienceField(s[k], f)];
  }

  /** With unique ids, the highlights chip `onAdd` appends the value to that entry's list and changes nothing else. */
  lemma AddHighlightAt(d: PortfolioData, k: nat, value: string)
    requires UniqueIds(d.experience, ExperienceId)
    requires k < |d.experience|
    ensures var x := d.experience[k];
      AddHighlight(d, x.id, value) == d.(experience := d.experience[k := x.(highlights := x.highlights + [value])])
  {
    var x := d.experience[k];
    FindByIdUnique(d.experience, ExperienceId, k);
    assert HighlightsOf(d, x.id) == x.highlights;
    var v := x.highlights + [value];
    assert WithExperienceField(x, Highlights(v)) == x.(highlights := v);
    EditExperienceAt(d, k, Highlights(v));
  }

  /**
   * With unique ids, the highlights chip `onRemove` deletes position `index`
   * of that entry's list (or nothing, out of range) and changes nothing else.
   */
  lemma RemoveHighlightAt(d: PortfolioData, k: nat, index: int)
    requires UniqueIds(d.experience, ExperienceId)
    requires k < |d.experience|
    ensures var x := d.experience[k];
      var kept := if 0 <= index < |x.highlights| then x.highlights[..index] + x.highlights[index + 1..] else x.highlights;
      RemoveHighlight(d, x.id, index) == d.(experience := d.experience[k := x.(highlights := kept)])
  {
    var x := d.experience[k];
    FindByIdUnique(d.experience, ExperienceId, k);
    assert HighlightsOf(d, x.id) == x.highlights;
    var v := DropIndex(x.highlights, index);
    DropIndexRemovesExactlyOne(x.highlights, index);
    assert WithExperienceField(x, Highlights(v)) == x.(highlights := v);
    EditExperienceAt(d, k, Highlights(v));
  }

}
