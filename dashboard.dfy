/**
 * The admin dashboard component. Its state is the draft document and the
 * category-rename drafts; every edit replaces the draft by one of the
 * updaters of module Editing and writes the new draft to local storage in the
 * same step. The class invariant is the point of that write: reloading the
 * page (`getPortfolioData`) yields exactly the draft on screen.
 */
module Dashboard {
  import opened Wrappers
  import opened JsString
  import opened Json
  import opened PortfolioTypes
  import opened Storage
  import opened PortfolioStore
  import opened AccessGate
  import Editing
  import Login

  /** The text box of a `ChipList`. */
  class ChipInput {
    var input: string

    constructor ()
      ensures input == ""
    {
      input := "";
    }

    method Change(v: string)
      modifies this
      ensures input == v
    {
      input := v;
    }

    /**
     * `handleKeyDown`: on Enter or `,` a non-blank input is handed to `onAdd`
     * trimmed and the box is cleared; any other key, or a blank input, adds
     * nothing and leaves the box as it was.
     */
    method HandleKeyDown(key: string) returns (added: Option<string>)
      modifies this
      ensures (key == "Enter" || key == ",") && !IsBlank(old(input)) ==>
                added == Some(Trim(old(input))) && input == ""
      ensures !((key == "Enter" || key == ",") && !IsBlank(old(input))) ==>
                added == None && input == old(input)
      ensures added.Some? ==> added.value != "" && !IsSpace(added.value[0]) && !IsSpace(added.value[|added.value| - 1])
    {
      added := None;
      if key == "Enter" || key == "," {
        var v := Trim(input);
        if v != "" {
          added := Some(v);
          input := "";
        }
      }
    }
  }

  class DashboardInner {
    const storage: LocalStorage
    const codec: Codec<PortfolioData>
    /** The document bundled with the site, the fall-back of `getPortfolioData`. */
    const bundled: PortfolioData
    var data: PortfolioData
    var categoryRenameDraft: map<string, string>

    /** Reloading the page shows the draft: the store holds it (or holds nothing and the draft is the bundled one). */
    ghost predicate Valid()
      reads this, storage
    {
      Lawful(codec) && Load(storage.items, codec, bundled) == data
    }

    /** `useState(getPortfolioData)`: the draft starts as whatever the store yields; nothing is written. */
    constructor (storage: LocalStorage, codec: Codec<PortfolioData>, bundled: PortfolioData)
      requires Lawful(codec)
      ensures Valid()
      ensures this.storage == storage && this.codec == codec && this.bundled == bundled
      ensures data == Load(storage.items, codec, bundled) && categoryRenameDraft == map[]
    {
      var d := GetPortfolioData(storage, codec, bundled);
      this.storage, this.codec, this.bundled := storage, codec, bundled;
      data, categoryRenameDraft := d, map[];
    }

    /** The tail of every updater: `setPortfolioData(next); return next`. */
    method Commit(next: PortfolioData)
      requires Valid()
      modifies this`data, storage
      ensures Valid() && data == next
      ensures storage.items == Save(old(storage.items), codec, next)
    {
      data := next;
      SetPortfolioData(storage, codec, next);
      SaveThenLoad(old(storage.items), codec, bundled, next);
    }

    /** `update(updates)`: shallow merge, then save. */
    method Update(u: Editing.Patch)
      requires Valid()
      modifies this`data, storage
      ensures Valid() && data == Editing.Update(old(data), u)
      ensures storage.items == Save(old(storage.items), codec, data)
    {
      Commit(Editing.Update(data, u));
    }

    /** A contact input. */
    method EditContact(f: Editing.ContactField)
      requires Valid()
      modifies this`data, storage
      ensures Valid() && data == Editing.EditContact(old(data), f)
      ensures storage.items == Save(old(storage.items), codec, data)
    {
      Commit(Editing.EditContact(data, f));
    }

    /**
     * `addSkillCategory`, given the prompt's answer (`None` when cancelled).
     * An empty or existing name returns early and writes nothing.
     */
    method AddSkillCategory(answer: Option<string>)
      requires Valid()
      modifies this`data, storage
      ensures Valid() && data == Editing.AddSkillCategory(old(data), answer)
      ensures Editing.PromptedName(answer) == "" || Editing.PromptedName(answer) in old(data).skills
              ==> storage.items == old(storage.items)
      ensures Editing.PromptedName(answer) != "" && Editing.PromptedName(answer) !in old(data).skills
              ==> storage.items == Save(old(storage.items), codec, data)
    {
      var name := Editing.PromptedName(answer);
      if name != "" && name !in data.skills {
        Commit(Editing.AddSkillCategory(data, answer));
      }
    }

    method RemoveSkillCategory(category: string)
      requires Valid()
      modifies this`data, storage
      ensures Valid() && data == Editing.RemoveSkillCategory(old(data), category)
      ensures storage.items == Save(old(storage.items), codec, data)
    {
      Commit(Editing.RemoveSkillCategory(data, category));
    }

    /** Typing in a category's name box only changes the rename draft. */
    method ChangeCategoryDraft(category: string, text: string)
      modifies this`categoryRenameDraft
      ensures categoryRenameDraft == old(categoryRenameDraft)[category := text]
    {
      categoryRenameDraft := categoryRenameDraft[category := text];
    }

    /**
     * Leaving a category's name box: the draft for it is dropped, and the
     * category is renamed (and the document saved) only when the trimmed
     * name is non-empty and differs from the old one.
     */
    method BlurCategory(category: string)
      requires Valid()
      requires category in data.skills
      modifies this, storage
      ensures Valid()
      ensures categoryRenameDraft == old(categoryRenameDraft) - {category}
      ensures var newName := Editing.RenameTarget(category, old(categoryRenameDraft));
        && (newName != "" && newName != category ==>
              data == Editing.RenameSkillCategory(old(data), category, newName)
              && storage.items == Save(old(storage.items), codec, data))
        && (newName == "" || newName == category ==>
              data == old(data) && storage.items == old(storage.items))
    {
      var newName := Editing.RenameTarget(category, categoryRenameDraft);
      categoryRenameDraft := categoryRenameDraft - {category};
      if newName != "" && newName != category {
        Commit(Editing.RenameSkillCategory(data, category, newName));
      }
    }

    method AddSkill(category: string, value: string)
      requires Valid()
      modifies this`data, storage
      ensures Valid() && data == Editing.AddSkill(old(data), category, value)
      ensures storage.items == Save(old(storage.items), codec, data)
    {
      Commit(Editing.AddSkill(data, category, value));
    }

    method RemoveSkill(category: string, index: int)
      requires Valid()
      modifies this`data, storage
      ensures Valid() && data == Editing.RemoveSkill(old(data), category, index)
      ensures storage.items == Save(old(storage.items), codec, data)
    {
      Commit(Editing.RemoveSkill(data, category, index));
    }

    /** `addProject`, with the id `newId()` produced. */
    method AddProject(freshId: string)
      requires Valid()
      modifies this`data, storage
      ensures Valid() && data == Editing.AddProject(old(data), freshId)
      ensures storage.items == Save(old(storage.items), codec, data)
    {
      Commit(Editing.AddProject(data, freshId));
    }

    /** `removeProject`, with the answer of the confirmation dialog. */
    method RemoveProject(id: string, confirmed: bool)
      requires Valid()
      modifies this`data, storage
      ensures Valid()
      ensures confirmed ==> data == Editing.RemoveProject(old(data), id)
                            && storage.items == Save(old(storage.items), codec, data)
      ensures !confirmed ==> data == old(data) && storage.items == old(storage.items)
    {
      if confirmed {
        Commit(Editing.RemoveProject(data, id));
      }
    }

    method EditProject(id: string, f: Editing.ProjectField)
      requires Valid()
      modifies this`data, storage
      ensures Valid() && data == Editing.EditProject(old(data), id, f)
      ensures storage.items == Save(old(storage.items), codec, data)
    {
      Commit(Editing.EditProject(data, id, f));
    }

    method AddTechStack(id: string, value: string)
      requires Valid()
      modifies this`data, storage
      ensures Valid() && data == Editing.AddTechStack(old(data), id, value)
      ensures storage.items == Save(old(storage.items), codec, data)
    {
      Commit(Editing.AddTechStack(data, id, value));
    }

    method RemoveTechStack(id: string, index: int)
      requires Valid()
      modifies this`data, storage
      ensures Valid() && data == Editing.RemoveTechStack(old(data), id, index)
      ensures storage.items == Save(old(storage.items), codec, data)
    {
      Commit(Editing.RemoveTechStack(data, id, index));
    }

    /** `addExperience`, with the id `newId()` produced. */
    method AddExperience(freshId: string)
      requires Valid()
      modifies this`data, storage
      ensures Valid() && data == Editing.AddExperience(old(data), freshId)
      ensures storage.items == Save(old(storage.items), codec, data)
    {
      Commit(Editing.AddExperience(data, freshId));
    }

    /** `removeExperience`, with the answer of the confirmation dialog. */
    method RemoveExperience(id: string, confirmed: bool)
      requires Valid()
      modifies this`data, storage
      ensures Valid()
      ensures confirmed ==> data == Editing.RemoveExperience(old(data), id)
                            && storage.items == Save(old(storage.items), codec, data)
      ensures !confirmed ==> data == old(data) && storage.items == old(storage.items)
    {
      if confirmed {
        Commit(Editing.RemoveExperience(data, id));
      }
    }

    method EditExperience(id: string, f: Editing.ExperienceField)
      requires Valid()
      modifies this`data, storage
      ensures Valid() && data == Editing.EditExperience(old(data), id, f)
      ensures storage.items == Save(old(storage.items), codec, data)
    {
      Commit(Editing.EditExperience(data, id, f));
    }

    method AddHighlight(id: string, value: string)
      requires Valid()
      modifies this`data, storage
      ensures Valid() && data == Editing.AddHighlight(old(data), id, value)
      ensures storage.items == Save(old(storage.items), codec, data)
    {
      Commit(Editing.AddHighlight(data, id, value));
    }

    method RemoveHighlight(id: string, index: int)
      requires Valid()
      modifies this`data, storage
      ensures Valid() && data == Editing.RemoveHighlight(old(data), id, index)
      ensures storage.items == Save(old(storage.items), codec, data)
    {
      Commit(Editing.RemoveHighlight(data, id, index));
    }

    /** `handleLogout`: the admin flag is removed and the login page is shown; the saved document is untouched. */
    method Logout() returns (nav: Login.Navigation)
      requires Valid()
      modifies storage
      ensures Valid()
      ensures storage.items == WithAdmin(old(storage.items), false)
      ensures nav == Login.Navigation(LoginPath, true)
    {
      SetAdmin(storage, false);
      assert StorageKey[0] != AdminKey[0];
      nav := Login.Navigation(LoginPath, true);
    }
  }
}
