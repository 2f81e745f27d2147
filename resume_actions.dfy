/**
 * The actions of the resume store as pure functions from the old document to the
 * new one. Each one rewrites exactly one field of the document; the store class
 * (module Store) assigns their results. `newId` stands for the identifier
 * `nanoid()` mints inside an `add*` action.
 */
module ResumeActions {
  import opened Options
  import opened Keyed
  import opened ResumeTypes

  // ----- personal info -----

  /** `updatePersonalInfo`: only `personalInfo` changes, and it becomes the shallow merge. */
  function UpdatePersonalInfo(d: ResumeData, p: PersonalInfoPatch): (r: ResumeData)
    ensures r == d.(personalInfo := r.personalInfo)
    ensures r.personalInfo == MergePersonalInfo(d.personalInfo, p)
  {
    d.(personalInfo := MergePersonalInfo(d.personalInfo, p))
  }

  /** Two successive updates are one update with the combined partial. */
  lemma UpdatePersonalInfoTwice(d: ResumeData, p: PersonalInfoPatch, q: PersonalInfoPatch)
    ensures UpdatePersonalInfo(UpdatePersonalInfo(d, p), q) == UpdatePersonalInfo(d, CombinePersonalInfoPatches(p, q))
  {
    MergePersonalInfoTwice(d.personalInfo, p, q);
  }

  /** Applying the same update twice is applying it once. */
  lemma UpdatePersonalInfoIdempotent(d: ResumeData, p: PersonalInfoPatch)
    ensures UpdatePersonalInfo(UpdatePersonalInfo(d, p), p) == UpdatePersonalInfo(d, p)
  {
    MergePersonalInfoIdempotent(d.personalInfo, p);
  }

  // ----- work experience -----

  /** `addWorkExperience`: one entry appended at the end, the given fields under the new id. */
  function AddWorkExperience(d: ResumeData, entry: WorkExperience, newId: Id): (r: ResumeData)
    ensures r == d.(workExperience := r.workExperience)
    ensures |r.workExperience| == |d.workExperience| + 1
    ensures r.workExperience[..|d.workExperience|] == d.workExperience
    ensures r.workExperience[|d.workExperience|] == entry.(id := newId)
  {
    d.(workExperience := d.workExperience + [entry.(id := newId)])
  }

  /** `updateWorkExperience`: every entry with `id` merged with `p`, every other entry kept, order kept. */
  function UpdateWorkExperience(d: ResumeData, id: Id, p: WorkExperiencePatch): (r: ResumeData)
    ensures r == d.(workExperience := r.workExperience)
    ensures |r.workExperience| == |d.workExperience|
    ensures forall k :: 0 <= k < |d.workExperience| ==>
      r.workExperience[k] ==
        if d.workExperience[k].id == id then MergeWorkExperience(d.workExperience[k], p) else d.workExperience[k]
    ensures !HasId(d.workExperience, WorkId, id) ==> r == d
  {
    d.(workExperience := MapWhere(d.workExperience, WorkId, id, w => MergeWorkExperience(w, p)))
  }

  /** `removeWorkExperience`: the entries whose id differs, in their original order, none carrying `id`. */
  function RemoveWorkExperience(d: ResumeData, id: Id): (r: ResumeData)
    ensures r == d.(workExperience := r.workExperience)
    ensures r.workExperience == RemoveId(d.workExperience, WorkId, id)
    ensures forall k :: 0 <= k < |r.workExperience| ==> r.workExperience[k].id != id
    ensures multiset(r.workExperience) <= multiset(d.workExperience)
    ensures forall w | w in d.workExperience && w.id != id ::
      multiset(r.workExperience)[w] == multiset(d.workExperience)[w]
    ensures !HasId(d.workExperience, WorkId, id) ==> r == d
  {
    RemoveIdKeepsOthers(d.workExperience, WorkId, id);
    RemoveIdAbsent(d.workExperience, WorkId, id);
    d.(workExperience := RemoveId(d.workExperience, WorkId, id))
  }

  // ----- education -----

  /** `addEducation`: one entry appended at the end, the given fields under the new id. */
  function AddEducation(d: ResumeData, entry: Education, newId: Id): (r: ResumeData)
    ensures r == d.(education := r.education)
    ensures |r.education| == |d.education| + 1
    ensures r.education[..|d.education|] == d.education
    ensures r.education[|d.education|] == entry.(id := newId)
  {
    d.(education := d.education + [entry.(id := newId)])
  }

  /** `updateEducation`: every entry with `id` merged with `p`, every other entry kept, order kept. */
  function UpdateEducation(d: ResumeData, id: Id, p: EducationPatch): (r: ResumeData)
    ensures r == d.(education := r.education)
    ensures |r.education| == |d.education|
    ensures forall k :: 0 <= k < |d.education| ==>
      r.education[k] == if d.education[k].id == id then MergeEducation(d.education[k], p) else d.education[k]
    ensures !HasId(d.education, EducationId, id) ==> r == d
  {
    d.(education := MapWhere(d.education, EducationId, id, e => MergeEducation(e, p)))
  }

  /** `removeEducation`: the entries whose id differs, in their original order, none carrying `id`. */
  function RemoveEducation(d: ResumeData, id: Id): (r: ResumeData)
    ensures r == d.(education := r.education)
    ensures r.education == RemoveId(d.education, EducationId, id)
    ensures forall k :: 0 <= k < |r.education| ==> r.education[k].id != id
    ensures multiset(r.education) <= multiset(d.education)
    ensures forall e | e in d.education && e.id != id :: multiset(r.education)[e] == multiset(d.education)[e]
    ensures !HasId(d.education, EducationId, id) ==> r == d
  {
    RemoveIdKeepsOthers(d.education, EducationId, id);
    RemoveIdAbsent(d.education, EducationId, id);
    d.(education := RemoveId(d.education, EducationId, id))
  }

  // ----- skills -----

  /** `addSkill`: one skill appended at the end, the given fields under the new id. */
  function AddSkill(d: ResumeData, skill: Skill, newId: Id): (r: ResumeData)
    ensures r == d.(skills := r.skills)
    ensures |r.skills| == |d.skills| + 1
    ensures r.skills[..|d.skills|] == d.skills
    ensures r.skills[|d.skills|] == skill.(id := newId)
  {
    d.(skills := d.skills + [skill.(id := newId)])
  }

  /** `removeSkill`: the skills whose id differs, in their original order, none carrying `id`. */
  function RemoveSkill(d: ResumeData, id: Id): (r: ResumeData)
    ensures r == d.(skills := r.skills)
    ensures r.skills == RemoveId(d.skills, SkillId, id)
    ensures forall k :: 0 <= k < |r.skills| ==> r.skills[k].id != id
    ensures multiset(r.skills) <= multiset(d.skills)
    ensures forall s | s in d.skills && s.id != id :: multiset(r.skills)[s] == multiset(d.skills)[s]
    ensures !HasId(d.skills, SkillId, id) ==> r == d
  {
    RemoveIdKeepsOthers(d.skills, SkillId, id);
    RemoveIdAbsent(d.skills, SkillId, id);
    d.(skills := RemoveId(d.skills, SkillId, id))
  }

  // ----- custom sections -----

  /** `addCustomSection`: one section appended at the end, with the title, the new id and no items. */
  function AddCustomSection(d: ResumeData, title: string, newId: Id): (r: ResumeData)
    ensures r == d.(customSections := r.customSections)
    ensures |r.customSections| == |d.customSections| + 1
    ensures r.customSections[..|d.customSections|] == d.customSections
    ensures r.customSections[|d.customSections|] == CustomSection(newId, title, [])
  {
    d.(customSections := d.customSections + [CustomSection(newId, title, [])])
  }

  /** `updateCustomSection`: the title of every section with `id` replaced; ids, items and order kept. */
  function UpdateCustomSection(d: ResumeData, id: Id, title: string): (r: ResumeData)
    ensures r == d.(customSections := r.customSections)
    ensures |r.customSections| == |d.customSections|
    ensures forall k :: 0 <= k < |d.customSections| ==>
      r.customSections[k] ==
        if d.customSections[k].id == id then d.customSections[k].(title := title) else d.customSections[k]
    ensures forall k :: 0 <= k < |d.customSections| ==>
      r.customSections[k].id == d.customSections[k].id && r.customSections[k].items == d.customSections[k].items
    ensures !HasId(d.customSections, SectionId, id) ==> r == d
  {
    d.(customSections := MapWhere(d.customSections, SectionId, id, (c: CustomSection) => c.(title := title)))
  }

  /** `removeCustomSection`: the sections whose id differs, in their original order; the removed section's items go with it. */
  function RemoveCustomSection(d: ResumeData, id: Id): (r: ResumeData)
    ensures r == d.(customSections := r.customSections)
    ensures r.customSections == RemoveId(d.customSections, SectionId, id)
    ensures forall k :: 0 <= k < |r.customSections| ==> r.customSections[k].id != id
    ensures multiset(r.customSections) <= multiset(d.customSections)
    ensures forall c | c in d.customSections && c.id != id ::
      multiset(r.customSections)[c] == multiset(d.customSections)[c]
    ensures !HasId(d.customSections, SectionId, id) ==> r == d
  {
    RemoveIdKeepsOthers(d.customSections, SectionId, id);
    RemoveIdAbsent(d.customSections, SectionId, id);
    d.(customSections := RemoveId(d.customSections, SectionId, id))
  }

  /** No section with id `sectionId` holds an item with id `itemId`. */
  predicate NoSuchItem(sections: seq<CustomSection>, sectionId: Id, itemId: Id)
  {
    forall k :: 0 <= k < |sections| && sections[k].id == sectionId ==> !HasId(sections[k].items, ItemId, itemId)
  }

  /** `addCustomSectionItem`: the item appended, under the new id, to the items of every section with `sectionId`. */
  function AddCustomSectionItem(d: ResumeData, sectionId: Id, item: CustomSectionItem, newId: Id): (r: ResumeData)
    ensures r == d.(customSections := r.customSections)
    ensures |r.customSections| == |d.customSections|
    ensures forall k :: 0 <= k < |d.customSections| ==>
      r.customSections[k] ==
        if d.customSections[k].id == sectionId
        then d.customSections[k].(items := d.customSections[k].items + [item.(id := newId)])
        else d.customSections[k]
    ensures !HasId(d.customSections, SectionId, sectionId) ==> r == d
  {
    d.(customSections :=
      MapWhere(d.customSections, SectionId, sectionId, (c: CustomSection) => c.(items := c.items + [item.(id := newId)])))
  }

  /**
   * `updateCustomSectionItem`: in every section with `sectionId`, every item with
   * `itemId` merged with `p`; every other section and item kept, order kept.
   */
  function UpdateCustomSectionItem(d: ResumeData, sectionId: Id, itemId: Id, p: CustomSectionItemPatch): (r: ResumeData)
    ensures r == d.(customSections := r.customSections)
    ensures |r.customSections| == |d.customSections|
    ensures forall k :: 0 <= k < |d.customSections| ==>
      && r.customSections[k].id == d.customSections[k].id
      && r.customSections[k].title == d.customSections[k].title
      && |r.customSections[k].items| == |d.customSections[k].items|
      && (d.customSections[k].id != sectionId ==> r.customSections[k] == d.customSections[k])
    ensures forall k, j :: 0 <= k < |d.customSections| && d.customSections[k].id == sectionId && 0 <= j < |d.customSections[k].items| ==>
      r.customSections[k].items[j] ==
        if d.customSections[k].items[j].id == itemId
        then MergeCustomSectionItem(d.customSections[k].items[j], p)
        else d.customSections[k].items[j]
    ensures NoSuchItem(d.customSections, sectionId, itemId) ==> r == d
  {
    var r := d.(customSections :=
      MapWhere(d.customSections, SectionId, sectionId,
        (c: CustomSection) => c.(items := MapWhere(c.items, ItemId, itemId, i => MergeCustomSectionItem(i, p)))));
    assert NoSuchItem(d.customSections, sectionId, itemId) ==> r.customSections == d.customSections by {
      if NoSuchItem(d.customSections, sectionId, itemId) {
        forall k | 0 <= k < |d.customSections| ensures r.customSections[k] == d.customSections[k] {
        }
      }
    }
    r
  }

  /**
   * `removeCustomSectionItem`: in every section with `sectionId`, the items whose
   * id differs from `itemId`; every other section kept, order kept.
   */
  function RemoveCustomSectionItem(d: ResumeData, sectionId: Id, itemId: Id): (r: ResumeData)
    ensures r == d.(customSections := r.customSections)
    ensures |r.customSections| == |d.customSections|
    ensures forall k :: 0 <= k < |d.customSections| ==>
      r.customSections[k] ==
        if d.customSections[k].id == sectionId
        then d.customSections[k].(items := RemoveId(d.customSections[k].items, ItemId, itemId))
        else d.customSections[k]
    ensures NoSuchItem(d.customSections, sectionId, itemId) ==> r == d
  {
    var r := d.(customSections :=
      MapWhere(d.customSections, SectionId, sectionId, (c: CustomSection) => c.(items := RemoveId(c.items, ItemId, itemId))));
    assert NoSuchItem(d.customSections, sectionId, itemId) ==> r.customSections == d.customSections by {
      if NoSuchItem(d.customSections, sectionId, itemId) {
        forall k | 0 <= k < |d.customSections| ensures r.customSections[k] == d.customSections[k] {
          RemoveIdAbsent(d.customSections[k].items, ItemId, itemId);
        }
      }
    }
    r
  }
}
