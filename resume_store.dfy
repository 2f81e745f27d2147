/**
 * The store (`useResumeStore`): one object holding the selected template, the
 * wizard step and the document. Every action replaces one top-level field with a
 * new value computed from the old state, as zustand's `set` does when it merges
 * the keys it is given and keeps the others.
 */
module Store {
  import opened Options
  import opened Keyed
  import opened ResumeTypes
  import A = ResumeActions
  import L = ResumeLaws

  class ResumeStore {
    var template: ResumeTemplate
    var currentStep: int
    var data: ResumeData

    /** The store starts from `initialState`. */
    constructor ()
      ensures template == InitialTemplate && currentStep == InitialStep && data == InitialData
      ensures WellFormed(data)
    {
      template := InitialTemplate;
      currentStep := InitialStep;
      data := InitialData;
      InitialDataWellFormed();
    }

    method SetTemplate(t: ResumeTemplate)
      modifies this
      ensures template == t
      ensures currentStep == old(currentStep) && data == old(data)
    {
      template := t;
    }

    /** No bounds check: any step is stored as given. */
    method SetStep(step: int)
      modifies this
      ensures currentStep == step
      ensures template == old(template) && data == old(data)
    {
      currentStep := step;
    }

    method UpdatePersonalInfo(p: PersonalInfoPatch)
      modifies this
      ensures data == A.UpdatePersonalInfo(old(data), p)
      ensures template == old(template) && currentStep == old(currentStep)
      ensures old(WellFormed(data)) ==> WellFormed(data)
    {
      data := A.UpdatePersonalInfo(data, p);
    }

    /** `newId` plays the part of `nanoid()`: an identifier no entry has yet. */
    method AddWorkExperience(entry: WorkExperience, newId: Id)
      requires !HasId(data.workExperience, WorkId, newId)
      modifies this
      ensures data == A.AddWorkExperience(old(data), entry, newId)
      ensures template == old(template) && currentStep == old(currentStep)
      ensures old(WellFormed(data)) ==> WellFormed(data)
    {
      if WellFormed(data) {
        L.AddWorkExperienceKeepsWellFormed(data, entry, newId);
      }
      data := A.AddWorkExperience(data, entry, newId);
    }

    method UpdateWorkExperience(id: Id, p: WorkExperiencePatch)
      modifies this
      ensures data == A.UpdateWorkExperience(old(data), id, p)
      ensures template == old(template) && currentStep == old(currentStep)
      ensures old(WellFormed(data)) && (p.id.None? || p.id == Some(id)) ==> WellFormed(data)
    {
      if WellFormed(data) && (p.id.None? || p.id == Some(id)) {
        L.UpdateWorkExperienceKeepsWellFormed(data, id, p);
      }
      data := A.UpdateWorkExperience(data, id, p);
    }

    method RemoveWorkExperience(id: Id)
      modifies this
      ensures data == A.RemoveWorkExperience(old(data), id)
      ensures template == old(template) && currentStep == old(currentStep)
      ensures old(WellFormed(data)) ==> WellFormed(data)
    {
      if WellFormed(data) {
        L.RemoveWorkExperienceKeepsWellFormed(data, id);
      }
      data := A.RemoveWorkExperience(data, id);
    }

    /** `newId` plays the part of `nanoid()`: an identifier no entry has yet. */
    method AddEducation(entry: Education, newId: Id)
      requires !HasId(data.education, EducationId, newId)
      modifies this
      ensures data == A.AddEducation(old(data), entry, newId)
      ensures template == old(template) && currentStep == old(currentStep)
      ensures old(WellFormed(data)) ==> WellFormed(data)
    {
      if WellFormed(data) {
        L.AddEducationKeepsWellFormed(data, entry, newId);
      }
      data := A.AddEducation(data, entry, newId);
    }

    method UpdateEducation(id: Id, p: EducationPatch)
      modifies this
      ensures data == A.UpdateEducation(old(data), id, p)
      ensures template == old(template) && currentStep == old(currentStep)
      ensures old(WellFormed(data)) && (p.id.None? || p.id == Some(id)) ==> WellFormed(data)
    {
      if WellFormed(data) && (p.id.None? || p.id == Some(id)) {
        L.UpdateEducationKeepsWellFormed(data, id, p);
      }
      data := A.UpdateEducation(data, id, p);
    }

    method RemoveEducation(id: Id)
      modifies this
      ensures data == A.RemoveEducation(old(data), id)
      ensures template == old(template) && currentStep == old(currentStep)
      ensures old(WellFormed(data)) ==> WellFormed(data)
    {
      if WellFormed(data) {
        L.RemoveEducationKeepsWellFormed(data, id);
      }
      data := A.RemoveEducation(data, id);
    }

    /** `newId` plays the part of `nanoid()`: an identifier no skill has yet. */
    method AddSkill(skill: Skill, newId: Id)
      requires !HasId(data.skills, SkillId, newId)
      modifies this
      ensures data == A.AddSkill(old(data), skill, newId)
      ensures template == old(template) && currentStep == old(currentStep)
      ensures old(WellFormed(data)) ==> WellFormed(data)
    {
      if WellFormed(data) {
        L.AddSkillKeepsWellFormed(data, skill, newId);
      }
      data := A.AddSkill(data, skill, newId);
    }

    method RemoveSkill(id: Id)
      modifies this
      ensures data == A.RemoveSkill(old(data), id)
      ensures template == old(template) && currentStep == old(currentStep)
      ensures old(WellFormed(data)) ==> WellFormed(data)
    {
      if WellFormed(data) {
        L.RemoveSkillKeepsWellFormed(data, id);
      }
      data := A.RemoveSkill(data, id);
    }

    /** `newId` plays the part of `nanoid()`: an identifier no section has yet. */
    method AddCustomSection(title: string, newId: Id)
      requires !HasId(data.customSections, SectionId, newId)
      modifies this
      ensures data == A.AddCustomSection(old(data), title, newId)
      ensures template == old(template) && currentStep == old(currentStep)
      ensures old(WellFormed(data)) ==> WellFormed(data)
    {
      if WellFormed(data) {
        L.AddCustomSectionKeepsWellFormed(data, title, newId);
      }
      data := A.AddCustomSection(data, title, newId);
    }

    method UpdateCustomSection(id: Id, title: string)
      modifies this
      ensures data == A.UpdateCustomSection(old(data), id, title)
      ensures template == old(template) && currentStep == old(currentStep)
      ensures old(WellFormed(data)) ==> WellFormed(data)
    {
      if WellFormed(data) {
        L.UpdateCustomSectionKeepsWellFormed(data, id, title);
      }
      data := A.UpdateCustomSection(data, id, title);
    }

    method RemoveCustomSection(id: Id)
      modifies this
      ensures data == A.RemoveCustomSection(old(data), id)
      ensures template == old(template) && currentStep == old(currentStep)
      ensures old(WellFormed(data)) ==> WellFormed(data)
    {
      if WellFormed(data) {
        L.RemoveCustomSectionKeepsWellFormed(data, id);
      }
      data := A.RemoveCustomSection(data, id);
    }

    /** `newId` plays the part of `nanoid()`: an identifier no item of the target section has yet. */
    method AddCustomSectionItem(sectionId: Id, item: CustomSectionItem, newId: Id)
      requires A.NoSuchItem(data.customSections, sectionId, newId)
      modifies this
      ensures data == A.AddCustomSectionItem(old(data), sectionId, item, newId)
      ensures template == old(template) && currentStep == old(currentStep)
      ensures old(WellFormed(data)) ==> WellFormed(data)
    {
      if WellFormed(data) {
        L.AddCustomSectionItemKeepsWellFormed(data, sectionId, item, newId);
      }
      data := A.AddCustomSectionItem(data, sectionId, item, newId);
    }

    method UpdateCustomSectionItem(sectionId: Id, itemId: Id, p: CustomSectionItemPatch)
      modifies this
      ensures data == A.UpdateCustomSectionItem(old(data), sectionId, itemId, p)
      ensures template == old(template) && currentStep == old(currentStep)
      ensures old(WellFormed(data)) ==> WellFormed(data)
    {
      if WellFormed(data) {
        L.UpdateCustomSectionItemKeepsWellFormed(data, sectionId, itemId, p);
      }
      data := A.UpdateCustomSectionItem(data, sectionId, itemId, p);
    }

    method RemoveCustomSectionItem(sectionId: Id, itemId: Id)
      modifies this
      ensures data == A.RemoveCustomSectionItem(old(data), sectionId, itemId)
      ensures template == old(template) && currentStep == old(currentStep)
      ensures old(WellFormed(data)) ==> WellFormed(data)
    {
      if WellFormed(data) {
        L.RemoveCustomSectionItemKeepsWellFormed(data, sectionId, itemId);
      }
      data := A.RemoveCustomSectionItem(data, sectionId, itemId);
    }

    /** `set(initialState)`: the same state whatever came before. */
    method ResetStore()
      modifies this
      ensures template == Classic && currentStep == 0 && data == InitialData
      ensures data.personalInfo == DefaultPersonalInfo
      ensures data.workExperience == [] && data.education == [] && data.skills == [] && data.customSections == []
      ensures WellFormed(data)
    {
      template := InitialTemplate;
      currentStep := InitialStep;
      data := InitialData;
      InitialDataWellFormed();
    }
  }
}
