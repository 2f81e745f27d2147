/**
 * The resume document: its entities, the partial records the `update*` actions
 * accept, the shallow merge `{ ...old, ...partial }` for each of them, and the
 * document's initial value.
 *
 * A `Partial<T>` is a record of options: `None` is a key the caller left out,
 * `Some(v)` a key it gave. For a field that is itself optional (`linkedin?`,
 * `subtitle?`, ...) the patch holds `Option<Option<string>>`, so that a key given
 * with the value `undefined` (`Some(None)`) clears the field.
 */
module ResumeTypes {
  import opened Options
  import opened Keyed

  /** The five layouts; a display-routing key, not data. */
  datatype ResumeTemplate = Classic | Modern | Executive | Minimal | Creative

  datatype SkillLevel = Beginner | Intermediate | Advanced | Expert

  datatype PersonalInfo = PersonalInfo(
    firstName: string,
    lastName: string,
    email: string,
    phone: string,
    address: string,
    city: string,
    state: string,
    zipCode: string,
    title: string,
    summary: string,
    linkedin: Option<string>,
    website: Option<string>)

  datatype WorkExperience = WorkExperience(
    id: Id,
    position: string,
    company: string,
    location: string,
    startDate: string,
    endDate: string,
    current: bool,
    description: string,
    achievements: seq<string>)

  datatype Education = Education(
    id: Id,
    institution: string,
    location: string,
    degree: string,
    field: string,
    startDate: string,
    endDate: string,
    current: bool,
    description: string,
    gpa: string)

  datatype Skill = Skill(id: Id, name: string, level: SkillLevel)

  datatype CustomSectionItem = CustomSectionItem(
    id: Id,
    title: string,
    subtitle: Option<string>,
    startDate: Option<string>,
    endDate: Option<string>,
    description: Option<string>,
    bulletPoints: seq<string>)

  datatype CustomSection = CustomSection(id: Id, title: string, items: seq<CustomSectionItem>)

  datatype ResumeData = ResumeData(
    personalInfo: PersonalInfo,
    workExperience: seq<WorkExperience>,
    education: seq<Education>,
    skills: seq<Skill>,
    customSections: seq<CustomSection>)

  // Readers of the identifier of each entity, passed to the generic operations of Keyed.
  function WorkId(w: WorkExperience): Id { w.id }
  function EducationId(e: Education): Id { e.id }
  function SkillId(s: Skill): Id { s.id }
  function SectionId(c: CustomSection): Id { c.id }
  function ItemId(i: CustomSectionItem): Id { i.id }

  /** Every collection, and the items of every custom section, has unique identifiers. */
  predicate WellFormed(d: ResumeData)
  {
    && UniqueIds(d.workExperience, WorkId)
    && UniqueIds(d.education, EducationId)
    && UniqueIds(d.skills, SkillId)
    && UniqueIds(d.customSections, SectionId)
    && forall k :: 0 <= k < |d.customSections| ==> UniqueIds(d.customSections[k].items, ItemId)
  }

  /** `defaultPersonalInfo`: ten empty strings, no LinkedIn profile and no website. */
  const DefaultPersonalInfo := PersonalInfo("", "", "", "", "", "", "", "", "", "", None, None)

  /** The document of `initialState`. */
  const InitialData := ResumeData(DefaultPersonalInfo, [], [], [], [])

  const InitialTemplate := Classic

  const InitialStep := 0

  /** The default personal info: ten empty strings, `linkedin` and `website` absent. */
  lemma DefaultPersonalInfoEmpty()
    ensures var x := DefaultPersonalInfo;
      && x.firstName == "" && x.lastName == "" && x.email == "" && x.phone == "" && x.address == ""
      && x.city == "" && x.state == "" && x.zipCode == "" && x.title == "" && x.summary == ""
      && x.linkedin.None? && x.website.None?
  {
  }

  /** The initial document: default personal info and four empty collections. */
  lemma InitialDataEmpty()
    ensures InitialData.personalInfo == DefaultPersonalInfo
    ensures InitialData.workExperience == [] && InitialData.education == []
    ensures InitialData.skills == [] && InitialData.customSections == []
  {
  }

  lemma InitialDataWellFormed()
    ensures WellFormed(InitialData)
  {
  }

  // ----- Partial<PersonalInfo> -----

  datatype PersonalInfoPatch = PersonalInfoPatch(
    firstName: Option<string>,
    lastName: Option<string>,
    email: Option<string>,
    phone: Option<string>,
    address: Option<string>,
    city: Option<string>,
    state: Option<string>,
    zipCode: Option<string>,
    title: Option<string>,
    summary: Option<string>,
    linkedin: Option<Option<string>>,
    website: Option<Option<string>>)

  /** The empty partial `{}`. */
  const NoPersonalInfoChange :=
    PersonalInfoPatch(None, None, None, None, None, None, None, None, None, None, None, None)

  /** The partial that gives every key the value it has in `x`. */
  function FullPersonalInfoPatch(x: PersonalInfo): PersonalInfoPatch
  {
    PersonalInfoPatch(
      Some(x.firstName), Some(x.lastName), Some(x.email), Some(x.phone), Some(x.address),
      Some(x.city), Some(x.state), Some(x.zipCode), Some(x.title), Some(x.summary),
      Some(x.linkedin), Some(x.website))
  }

  /** `{ ...x, ...p }`: a key the partial gives takes its value, an omitted key keeps the old one. */
  function MergePersonalInfo(x: PersonalInfo, p: PersonalInfoPatch): (r: PersonalInfo)
    ensures Overridden(x.firstName, p.firstName, r.firstName)
    ensures Overridden(x.lastName, p.lastName, r.lastName)
    ensures Overridden(x.email, p.email, r.email)
    ensures Overridden(x.phone, p.phone, r.phone)
    ensures Overridden(x.address, p.address, r.address)
    ensures Overridden(x.city, p.city, r.city)
    ensures Overridden(x.state, p.state, r.state)
    ensures Overridden(x.zipCode, p.zipCode, r.zipCode)
    ensures Overridden(x.title, p.title, r.title)
    ensures Overridden(x.summary, p.summary, r.summary)
    ensures Overridden(x.linkedin, p.linkedin, r.linkedin)
    ensures Overridden(x.website, p.website, r.website)
  {
    PersonalInfo(
      p.firstName.GetOr(x.firstName),
      p.lastName.GetOr(x.lastName),
      p.email.GetOr(x.email),
      p.phone.GetOr(x.phone),
      p.address.GetOr(x.address),
      p.city.GetOr(x.city),
      p.state.GetOr(x.state),
      p.zipCode.GetOr(x.zipCode),
      p.title.GetOr(x.title),
      p.summary.GetOr(x.summary),
      p.linkedin.GetOr(x.linkedin),
      p.website.GetOr(x.website))
  }

  /** `{ ...p, ...q }`: the keys of both, `q`'s value where both give one. */
  function CombinePersonalInfoPatches(p: PersonalInfoPatch, q: PersonalInfoPatch): PersonalInfoPatch
  {
    PersonalInfoPatch(
      q.firstName.Or(p.firstName),
      q.lastName.Or(p.lastName),
      q.email.Or(p.email),
      q.phone.Or(p.phone),
      q.address.Or(p.address),
      q.city.Or(p.city),
      q.state.Or(p.state),
      q.zipCode.Or(p.zipCode),
      q.title.Or(p.title),
      q.summary.Or(p.summary),
      q.linkedin.Or(p.linkedin),
      q.website.Or(p.website))
  }

  /** No key is given by both partials. */
  predicate DisjointPersonalInfoPatches(p: PersonalInfoPatch, q: PersonalInfoPatch)
  {
    && (p.firstName.None? || q.firstName.None?)
    && (p.lastName.None? || q.lastName.None?)
    && (p.email.None? || q.email.None?)
    && (p.phone.None? || q.phone.None?)
    && (p.address.None? || q.address.None?)
    && (p.city.None? || q.city.None?)
    && (p.state.None? || q.state.None?)
    && (p.zipCode.None? || q.zipCode.None?)
    && (p.title.None? || q.title.None?)
    && (p.summary.None? || q.summary.None?)
    && (p.linkedin.None? || q.linkedin.None?)
    && (p.website.None? || q.website.None?)
  }

  /** Merging the empty partial leaves the record as it was. */
  lemma MergePersonalInfoNoChange(x: PersonalInfo)
    ensures MergePersonalInfo(x, NoPersonalInfoChange) == x
  {
  }

  /** A partial that gives every key replaces the record outright. */
  lemma MergePersonalInfoFull(x: PersonalInfo, y: PersonalInfo)
    ensures MergePersonalInfo(x, FullPersonalInfoPatch(y)) == y
  {
  }

  /** Two successive merges are one merge of the combined partial. */
  lemma MergePersonalInfoTwice(x: PersonalInfo, p: PersonalInfoPatch, q: PersonalInfoPatch)
    ensures MergePersonalInfo(MergePersonalInfo(x, p), q) == MergePersonalInfo(x, CombinePersonalInfoPatches(p, q))
  {
  }

  /** Merges of partials with no key in common can be applied in either order. */
  lemma MergePersonalInfoDisjoint(x: PersonalInfo, p: PersonalInfoPatch, q: PersonalInfoPatch)
    requires DisjointPersonalInfoPatches(p, q)
    ensures MergePersonalInfo(MergePersonalInfo(x, p), q) == MergePersonalInfo(MergePersonalInfo(x, q), p)
    ensures MergePersonalInfo(MergePersonalInfo(x, p), q) == MergePersonalInfo(x, CombinePersonalInfoPatches(q, p))
  {
  }

  /** Merging the same partial twice is merging it once. */
  lemma MergePersonalInfoIdempotent(x: PersonalInfo, p: PersonalInfoPatch)
    ensures MergePersonalInfo(MergePersonalInfo(x, p), p) == MergePersonalInfo(x, p)
  {
  }

  // ----- Partial<WorkExperience> (it may carry `id`) -----

  datatype WorkExperiencePatch = WorkExperiencePatch(
    id: Option<Id>,
    position: Option<string>,
    company: Option<string>,
    location: Option<string>,
    startDate: Option<string>,
    endDate: Option<string>,
    current: Option<bool>,
    description: Option<string>,
    achievements: Option<seq<string>>)

  /** `{ ...x, ...p }`: a key the partial gives takes its value, an omitted key keeps the old one. */
  function MergeWorkExperience(x: WorkExperience, p: WorkExperiencePatch): (r: WorkExperience)
    ensures Overridden(x.id, p.id, r.id)
    ensures Overridden(x.position, p.position, r.position)
    ensures Overridden(x.company, p.company, r.company)
    ensures Overridden(x.location, p.location, r.location)
    ensures Overridden(x.startDate, p.startDate, r.startDate)
    ensures Overridden(x.endDate, p.endDate, r.endDate)
    ensures Overridden(x.current, p.current, r.current)
    ensures Overridden(x.description, p.description, r.description)
    ensures Overridden(x.achievements, p.achievements, r.achievements)
  {
    WorkExperience(
      p.id.GetOr(x.id),
      p.position.GetOr(x.position),
      p.company.GetOr(x.company),
      p.location.GetOr(x.location),
      p.startDate.GetOr(x.startDate),
      p.endDate.GetOr(x.endDate),
      p.current.GetOr(x.current),
      p.description.GetOr(x.description),
      p.achievements.GetOr(x.achievements))
  }

  /** A partial without `id`, or with the id the entry already has, leaves the id alone. */
  lemma MergeWorkExperienceKeepsId(x: WorkExperience, p: WorkExperiencePatch)
    requires p.id.None? || p.id == Some(x.id)
    ensures MergeWorkExperience(x, p).id == x.id
  {
  }

  /** Merging the same partial twice is merging it once. */
  lemma MergeWorkExperienceIdempotent(x: WorkExperience, p: WorkExperiencePatch)
    ensures MergeWorkExperience(MergeWorkExperience(x, p), p) == MergeWorkExperience(x, p)
  {
  }

  // ----- Partial<Education> (it may carry `id`) -----

  datatype EducationPatch = EducationPatch(
    id: Option<Id>,
    institution: Option<string>,
    location: Option<string>,
    degree: Option<string>,
    field: Option<string>,
    startDate: Option<string>,
    endDate: Option<string>,
    current: Option<bool>,
    description: Option<string>,
    gpa: Option<string>)

  /** `{ ...x, ...p }`: a key the partial gives takes its value, an omitted key keeps the old one. */
  function MergeEducation(x: Education, p: EducationPatch): (r: Education)
    ensures Overridden(x.id, p.id, r.id)
    ensures Overridden(x.institution, p.institution, r.institution)
    ensures Overridden(x.location, p.location, r.location)
    ensures Overridden(x.degree, p.degree, r.degree)
    ensures Overridden(x.field, p.field, r.field)
    ensures Overridden(x.startDate, p.startDate, r.startDate)
    ensures Overridden(x.endDate, p.endDate, r.endDate)
    ensures Overridden(x.current, p.current, r.current)
    ensures Overridden(x.description, p.description, r.description)
    ensures Overridden(x.gpa, p.gpa, r.gpa)
  {
    Education(
      p.id.GetOr(x.id),
      p.institution.GetOr(x.institution),
      p.location.GetOr(x.location),
      p.degree.GetOr(x.degree),
      p.field.GetOr(x.field),
      p.startDate.GetOr(x.startDate),
      p.endDate.GetOr(x.endDate),
      p.current.GetOr(x.current),
      p.description.GetOr(x.description),
      p.gpa.GetOr(x.gpa))
  }

  /** A partial without `id`, or with the id the entry already has, leaves the id alone. */
  lemma MergeEducationKeepsId(x: Education, p: EducationPatch)
    requires p.id.None? || p.id == Some(x.id)
    ensures MergeEducation(x, p).id == x.id
  {
  }

  /** Merging the same partial twice is merging it once. */
  lemma MergeEducationIdempotent(x: Education, p: EducationPatch)
    ensures MergeEducation(MergeEducation(x, p), p) == MergeEducation(x, p)
  {
  }

  // ----- Partial<Omit<CustomSectionItem, "id">> (it cannot carry `id`) -----

  datatype CustomSectionItemPatch = CustomSectionItemPatch(
    title: Option<string>,
    subtitle: Option<Option<string>>,
    startDate: Option<Option<string>>,
    endDate: Option<Option<string>>,
    description: Option<Option<string>>,
    bulletPoints: Option<seq<string>>)

  /** `{ ...x, ...p }`: a key the partial gives takes its value, an omitted key keeps the old one. */
  function MergeCustomSectionItem(x: CustomSectionItem, p: CustomSectionItemPatch): (r: CustomSectionItem)
    ensures Overridden(x.title, p.title, r.title)
    ensures Overridden(x.subtitle, p.subtitle, r.subtitle)
    ensures Overridden(x.startDate, p.startDate, r.startDate)
    ensures Overridden(x.endDate, p.endDate, r.endDate)
    ensures Overridden(x.description, p.description, r.description)
    ensures Overridden(x.bulletPoints, p.bulletPoints, r.bulletPoints)
  {
    CustomSectionItem(
      x.id,
      p.title.GetOr(x.title),
      p.subtitle.GetOr(x.subtitle),
      p.startDate.GetOr(x.startDate),
      p.endDate.GetOr(x.endDate),
      p.description.GetOr(x.description),
      p.bulletPoints.GetOr(x.bulletPoints))
  }

  /** Merging the same partial twice is merging it once. */
  lemma MergeCustomSectionItemIdempotent(x: CustomSectionItem, p: CustomSectionItemPatch)
    ensures MergeCustomSectionItem(MergeCustomSectionItem(x, p), p) == MergeCustomSectionItem(x, p)
  {
  }

  /** The partial type has no `id` key, so an item update never changes the item's id. */
  lemma MergeCustomSectionItemKeepsId(x: CustomSectionItem, p: CustomSectionItemPatch)
    ensures MergeCustomSectionItem(x, p).id == x.id
  {
  }
}
