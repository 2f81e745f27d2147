/**
 * Laws of the resume store's actions: which ones keep identifiers unique, which
 * ones undo each other, which ones are idempotent, and the worked examples.
 */
module ResumeLaws {
  import opened Options
  import opened Keyed
  import opened ResumeTypes
  import opened ResumeActions

  // ----- unique identifiers (WellFormed) -----

  lemma AddWorkExperienceKeepsWellFormed(d: ResumeData, entry: WorkExperience, newId: Id)
    requires WellFormed(d) && !HasId(d.workExperience, WorkId, newId)
    ensures WellFormed(AddWorkExperience(d, entry, newId))
  {
    AppendFreshKeepsUnique(d.workExperience, entry.(id := newId), WorkId);
  }

  /** Uniqueness survives an update whose partial does not move the entry to another id. */
  lemma UpdateWorkExperienceKeepsWellFormed(d: ResumeData, id: Id, p: WorkExperiencePatch)
    requires WellFormed(d) && (p.id.None? || p.id == Some(id))
    ensures WellFormed(UpdateWorkExperience(d, id, p))
  {
    MapWhereKeepsUnique(d.workExperience, WorkId, id, w => MergeWorkExperience(w, p));
  }

  lemma RemoveWorkExperienceKeepsWellFormed(d: ResumeData, id: Id)
    requires WellFormed(d)
    ensures WellFormed(RemoveWorkExperience(d, id))
  {
    RemoveIdKeepsUnique(d.workExperience, WorkId, id);
  }

  lemma AddEducationKeepsWellFormed(d: ResumeData, entry: Education, newId: Id)
    requires WellFormed(d) && !HasId(d.education, EducationId, newId)
    ensures WellFormed(AddEducation(d, entry, newId))
  {
    AppendFreshKeepsUnique(d.education, entry.(id := newId), EducationId);
  }

  /** Uniqueness survives an update whose partial does not move the entry to another id. */
  lemma UpdateEducationKeepsWellFormed(d: ResumeData, id: Id, p: EducationPatch)
    requires WellFormed(d) && (p.id.None? || p.id == Some(id))
    ensures WellFormed(UpdateEducation(d, id, p))
  {
    MapWhereKeepsUnique(d.education, EducationId, id, e => MergeEducation(e, p));
  }

  lemma RemoveEducationKeepsWellFormed(d: ResumeData, id: Id)
    requires WellFormed(d)
    ensures WellFormed(RemoveEducation(d, id))
  {
    RemoveIdKeepsUnique(d.education, EducationId, id);
  }

  lemma AddSkillKeepsWellFormed(d: ResumeData, skill: Skill, newId: Id)
    requires WellFormed(d) && !HasId(d.skills, SkillId, newId)
    ensures WellFormed(AddSkill(d, skill, newId))
  {
    AppendFreshKeepsUnique(d.skills, skill.(id := newId), SkillId);
  }

  lemma RemoveSkillKeepsWellFormed(d: ResumeData, id: Id)
    requires WellFormed(d)
    ensures WellFormed(RemoveSkill(d, id))
  {
    RemoveIdKeepsUnique(d.skills, SkillId, id);
  }

  lemma AddCustomSectionKeepsWellFormed(d: ResumeData, title: string, newId: Id)
    requires WellFormed(d) && !HasId(d.customSections, SectionId, newId)
    ensures WellFormed(AddCustomSection(d, title, newId))
  {
    AppendFreshKeepsUnique(d.customSections, CustomSection(newId, title, []), SectionId);
  }

  lemma UpdateCustomSectionKeepsWellFormed(d: ResumeData, id: Id, title: string)
    requires WellFormed(d)
    ensures WellFormed(UpdateCustomSection(d, id, title))
  {
    MapWhereKeepsUnique(d.customSections, SectionId, id, (c: CustomSection) => c.(title := title));
  }

  lemma RemoveCustomSectionKeepsWellFormed(d: ResumeData, id: Id)
    requires WellFormed(d)
    ensures WellFormed(RemoveCustomSection(d, id))
  {
    var r := RemoveCustomSection(d, id);
    RemoveIdKeepsUnique(d.customSections, SectionId, id);
    forall k | 0 <= k < |r.customSections| ensures UniqueIds(r.customSections[k].items, ItemId) {
      var c := r.customSections[k];
      assert c in multiset(r.customSections);
      assert c in d.customSections;
    }
  }

  lemma AddCustomSectionItemKeepsWellFormed(d: ResumeData, sectionId: Id, item: CustomSectionItem, newId: Id)
    requires WellFormed(d) && NoSuchItem(d.customSections, sectionId, newId)
    ensures WellFormed(AddCustomSectionItem(d, sectionId, item, newId))
  {
    var r := AddCustomSectionItem(d, sectionId, item, newId);
    MapWhereKeepsUnique(d.customSections, SectionId, sectionId,
      (c: CustomSection) => c.(items := c.items + [item.(id := newId)]));
    forall k | 0 <= k < |r.customSections| && d.customSections[k].id == sectionId
      ensures UniqueIds(r.customSections[k].items, ItemId)
    {
      AppendFreshKeepsUnique(d.customSections[k].items, item.(id := newId), ItemId);
    }
  }

  lemma UpdateCustomSectionItemKeepsWellFormed(d: ResumeData, sectionId: Id, itemId: Id, p: CustomSectionItemPatch)
    requires WellFormed(d)
    ensures WellFormed(UpdateCustomSectionItem(d, sectionId, itemId, p))
  {
    var r := UpdateCustomSectionItem(d, sectionId, itemId, p);
    assert UniqueIds(r.customSections, SectionId);
    forall k | 0 <= k < |r.customSections| && d.customSections[k].id == sectionId
      ensures UniqueIds(r.customSections[k].items, ItemId)
    {
      var before, after := d.customSections[k].items, r.customSections[k].items;
      forall i, j | 0 <= i < j < |after| ensures ItemId(after[i]) != ItemId(after[j]) {
        MergeCustomSectionItemKeepsId(before[i], p);
        MergeCustomSectionItemKeepsId(before[j], p);
      }
    }
  }

  lemma RemoveCustomSectionItemKeepsWellFormed(d: ResumeData, sectionId: Id, itemId: Id)
    requires WellFormed(d)
    ensures WellFormed(RemoveCustomSectionItem(d, sectionId, itemId))
  {
    var r := RemoveCustomSectionItem(d, sectionId, itemId);
    assert UniqueIds(r.customSections, SectionId);
    forall k | 0 <= k < |r.customSections| && d.customSections[k].id == sectionId
      ensures UniqueIds(r.customSections[k].items, ItemId)
    {
      RemoveIdKeepsUnique(d.customSections[k].items, ItemId, itemId);
    }
  }

  /**
   * The partial of `updateWorkExperience` may carry an `id`: moving one entry onto
   * the id of another leaves two entries with the same id.
   */
  lemma UpdateWorkExperienceCanDuplicateIds(d: ResumeData, a: WorkExperience, b: WorkExperience, p: WorkExperiencePatch)
    requires a.id != b.id && d.workExperience == [a, b] && p.id == Some(b.id)
    ensures UniqueIds(d.workExperience, WorkId)
    ensures !UniqueIds(UpdateWorkExperience(d, a.id, p).workExperience, WorkId)
  {
    var r := UpdateWorkExperience(d, a.id, p);
    assert WorkId(r.workExperience[0]) == WorkId(r.workExperience[1]);
  }

  // ----- add, then remove -----

  lemma RemoveWorkExperienceUndoesAdd(d: ResumeData, entry: WorkExperience, newId: Id)
    requires !HasId(d.workExperience, WorkId, newId)
    ensures RemoveWorkExperience(AddWorkExperience(d, entry, newId), newId) == d
  {
    RemoveIdAfterAppend(d.workExperience, entry.(id := newId), WorkId);
  }

  lemma RemoveEducationUndoesAdd(d: ResumeData, entry: Education, newId: Id)
    requires !HasId(d.education, EducationId, newId)
    ensures RemoveEducation(AddEducation(d, entry, newId), newId) == d
  {
    RemoveIdAfterAppend(d.education, entry.(id := newId), EducationId);
  }

  lemma RemoveSkillUndoesAdd(d: ResumeData, skill: Skill, newId: Id)
    requires !HasId(d.skills, SkillId, newId)
    ensures RemoveSkill(AddSkill(d, skill, newId), newId) == d
  {
    RemoveIdAfterAppend(d.skills, skill.(id := newId), SkillId);
  }

  lemma RemoveCustomSectionUndoesAdd(d: ResumeData, title: string, newId: Id)
    requires !HasId(d.customSections, SectionId, newId)
    ensures RemoveCustomSection(AddCustomSection(d, title, newId), newId) == d
  {
    RemoveIdAfterAppend(d.customSections, CustomSection(newId, title, []), SectionId);
  }

  /** Removing a section removes, in the same step, the items added to it. */
  lemma RemoveCustomSectionDropsItems(d: ResumeData, title: string, sectionId: Id, item: CustomSectionItem, itemId: Id)
    requires !HasId(d.customSections, SectionId, sectionId)
    ensures var added := AddCustomSectionItem(AddCustomSection(d, title, sectionId), sectionId, item, itemId);
            && added.customSections == d.customSections + [CustomSection(sectionId, title, [item.(id := itemId)])]
            && RemoveCustomSection(added, sectionId) == d
  {
    var section := CustomSection(sectionId, title, []);
    var filled := CustomSection(sectionId, title, [item.(id := itemId)]);
    var withSection := AddCustomSection(d, title, sectionId);
    assert withSection.customSections == d.customSections + [section];
    var added := AddCustomSectionItem(withSection, sectionId, item, itemId);
    assert added.customSections == d.customSections + [filled] by {
      forall k | 0 <= k < |d.customSections| ensures added.customSections[k] == d.customSections[k] {
        assert withSection.customSections[k] == d.customSections[k];
      }
      assert added.customSections[|d.customSections|] == filled;
    }
    RemoveIdAfterAppend(d.customSections, filled, SectionId);
  }

  lemma RemoveCustomSectionItemUndoesAdd(d: ResumeData, sectionId: Id, item: CustomSectionItem, newId: Id)
    requires NoSuchItem(d.customSections, sectionId, newId)
    ensures RemoveCustomSectionItem(AddCustomSectionItem(d, sectionId, item, newId), sectionId, newId) == d
  {
    var added := AddCustomSectionItem(d, sectionId, item, newId);
    var r := RemoveCustomSectionItem(added, sectionId, newId);
    forall k | 0 <= k < |d.customSections| ensures r.customSections[k] == d.customSections[k] {
      if d.customSections[k].id == sectionId {
        RemoveIdAfterAppend(d.customSections[k].items, item.(id := newId), ItemId);
      }
    }
  }

  // ----- idempotence -----

  lemma UpdateWorkExperienceIdempotent(d: ResumeData, id: Id, p: WorkExperiencePatch)
    ensures UpdateWorkExperience(UpdateWorkExperience(d, id, p), id, p) == UpdateWorkExperience(d, id, p)
  {
    var once := UpdateWorkExperience(d, id, p);
    var twice := UpdateWorkExperience(once, id, p);
    forall k | 0 <= k < |d.workExperience| ensures twice.workExperience[k] == once.workExperience[k] {
      MergeWorkExperienceIdempotent(d.workExperience[k], p);
    }
  }

  lemma UpdateEducationIdempotent(d: ResumeData, id: Id, p: EducationPatch)
    ensures UpdateEducation(UpdateEducation(d, id, p), id, p) == UpdateEducation(d, id, p)
  {
    var once := UpdateEducation(d, id, p);
    var twice := UpdateEducation(once, id, p);
    forall k | 0 <= k < |d.education| ensures twice.education[k] == once.education[k] {
      MergeEducationIdempotent(d.education[k], p);
    }
  }

  lemma RemoveWorkExperienceIdempotent(d: ResumeData, id: Id)
    ensures RemoveWorkExperience(RemoveWorkExperience(d, id), id) == RemoveWorkExperience(d, id)
  {
    RemoveIdIdempotent(d.workExperience, WorkId, id);
  }

  lemma RemoveEducationIdempotent(d: ResumeData, id: Id)
    ensures RemoveEducation(RemoveEducation(d, id), id) == RemoveEducation(d, id)
  {
    RemoveIdIdempotent(d.education, EducationId, id);
  }

  lemma RemoveSkillIdempotent(d: ResumeData, id: Id)
    ensures RemoveSkill(RemoveSkill(d, id), id) == RemoveSkill(d, id)
  {
    RemoveIdIdempotent(d.skills, SkillId, id);
  }

  lemma RemoveCustomSectionIdempotent(d: ResumeData, id: Id)
    ensures RemoveCustomSection(RemoveCustomSection(d, id), id) == RemoveCustomSection(d, id)
  {
    RemoveIdIdempotent(d.customSections, SectionId, id);
  }

  lemma UpdateCustomSectionIdempotent(d: ResumeData, id: Id, title: string)
    ensures UpdateCustomSection(UpdateCustomSection(d, id, title), id, title) == UpdateCustomSection(d, id, title)
  {
    var once := UpdateCustomSection(d, id, title);
    var twice := UpdateCustomSection(once, id, title);
    forall k | 0 <= k < |d.customSections| ensures twice.customSections[k] == once.customSections[k] {
    }
  }

  /** Section ids are untouched by an item removal, so the second removal meets the same sections, already filtered. */
  lemma RemoveCustomSectionItemIdempotent(d: ResumeData, sectionId: Id, itemId: Id)
    ensures RemoveCustomSectionItem(RemoveCustomSectionItem(d, sectionId, itemId), sectionId, itemId)
            == RemoveCustomSectionItem(d, sectionId, itemId)
  {
    var once := RemoveCustomSectionItem(d, sectionId, itemId);
    var twice := RemoveCustomSectionItem(once, sectionId, itemId);
    forall k | 0 <= k < |d.customSections| ensures twice.customSections[k] == once.customSections[k] {
      RemoveIdIdempotent(d.customSections[k].items, ItemId, itemId);
    }
  }

  /** Item merges keep item ids, so the second update meets the same items, already merged. */
  lemma UpdateCustomSectionItemIdempotent(d: ResumeData, sectionId: Id, itemId: Id, p: CustomSectionItemPatch)
    ensures UpdateCustomSectionItem(UpdateCustomSectionItem(d, sectionId, itemId, p), sectionId, itemId, p)
            == UpdateCustomSectionItem(d, sectionId, itemId, p)
  {
    var once := UpdateCustomSectionItem(d, sectionId, itemId, p);
    var twice := UpdateCustomSectionItem(once, sectionId, itemId, p);
    forall k | 0 <= k < |d.customSections| ensures twice.customSections[k] == once.customSections[k] {
      if d.customSections[k].id == sectionId {
        var items, a, b := d.customSections[k].items, once.customSections[k].items, twice.customSections[k].items;
        assert once.customSections[k].id == sectionId;
        assert |a| == |items| && |b| == |a|;
        forall j | 0 <= j < |items| ensures b[j] == a[j] {
          MergeCustomSectionItemKeepsId(items[j], p);
          MergeCustomSectionItemIdempotent(items[j], p);
          assert a[j] == if items[j].id == itemId then MergeCustomSectionItem(items[j], p) else items[j];
          assert b[j] == if a[j].id == itemId then MergeCustomSectionItem(a[j], p) else a[j];
        }
        assert b == a;
      }
    }
  }

  // ----- worked examples -----

  /** Add two skills, remove the first: only the second is left after the old ones. */
  lemma AddTwoSkillsRemoveFirst(d: ResumeData, first: Skill, second: Skill, firstId: Id, secondId: Id)
    requires firstId != secondId && !HasId(d.skills, SkillId, firstId)
    ensures RemoveSkill(AddSkill(AddSkill(d, first, firstId), second, secondId), firstId).skills
            == d.skills + [second.(id := secondId)]
  {
    var one := d.skills + [first.(id := firstId)];
    RemoveIdAppend(one, [second.(id := secondId)], SkillId, firstId);
    RemoveIdAfterAppend(d.skills, first.(id := firstId), SkillId);
    assert RemoveId([second.(id := secondId)], SkillId, firstId) == [second.(id := secondId)];
  }

  /** Two updates of personal info with different keys each set their own key and nothing else. */
  lemma UpdateEmailThenPhone(email: string, phone: string)
    ensures var p := NoPersonalInfoChange.(email := Some(email));
            var q := NoPersonalInfoChange.(phone := Some(phone));
            UpdatePersonalInfo(UpdatePersonalInfo(InitialData, p), q).personalInfo
            == DefaultPersonalInfo.(email := email, phone := phone)
  {
  }
}
