# Resume store, modelled in Dafny

This project models the data store of a client-side resume builder (`src/store/resumeStore.ts`). The store holds:

- one resume document (`ResumeData`): a `personalInfo` record and four ordered collections, `workExperience`, `education`, `skills` and `customSections`; each custom section owns an ordered list of `items`;
- the selected layout (`template`, one of five values);
- the wizard step (`currentStep`).

Each store action turns the old state into a new one by one of these rules:

- append an entry under a freshly minted id (`add*`);
- shallow-merge a partial record into the entries whose id matches (`update*`);
- filter out the entries whose id matches (`remove*`);
- override fields of `personalInfo`;
- reset to the initial state.

Layout:

- `options.dfy` (module `Options`): `Option`, with `GetOr` (the value if the key is there, else the old one) and `Or`.
- `keyed.dfy` (module `Keyed`): the two id-addressed operations every collection uses, written once and generic in the element type. `RemoveId` is the `filter`; `MapWhere` is the `map` that rewrites the matching elements. Their laws are proved here too: filter keeps exactly the other elements, in order; an absent id is a no-op; removal is idempotent; unique ids survive.
- `resume_types.dfy` (module `ResumeTypes`): the entities, the partial records, the shallow merges and their algebra, `defaultPersonalInfo`/`initialState`, and `WellFormed` (unique ids in every collection and in every section's items).
- `resume_actions.dfy` (module `ResumeActions`): one pure function per action, from the old document to the new one. Each contract states:
  - the frame: only one field of the document changes;
  - what the changed collection now is: the appended element, the pointwise rewrite, or the multiset of survivors;
  - the no-op law for an absent id.
- `resume_laws.dfy` (module `ResumeLaws`): lemmas relating several actions:
  - every action keeps `WellFormed`, given a fresh id for an add and, for the work/education update, a partial that does not move the entry to another id;
  - add followed by remove restores the document;
  - every update and every remove is idempotent;
  - worked examples: two skills added and the first removed; a section added with one item and then removed; two personal-info updates with different keys.
- `resume_store.dfy` (module `Store`): the class `ResumeStore` with fields `template`, `currentStep` and `data`. Each method assigns the result of the matching pure function and leaves the other two fields alone, as zustand's `set` does with the keys it is not given.

Encoding choices:

- `Partial<T>` is a record of `Option`s: `None` is an omitted key and `Some(v)` a given one. For a field that is itself optional (`linkedin?`, `website?`, and the item's `subtitle?`, `startDate?`, `endDate?`, `description?`) the partial holds `Option<Option<string>>`, so a key given as `undefined` (`Some(None)`) clears the field, as the spread does.
- An `Omit<T, "id">` argument of an `add*` action is a full entity whose `id` is ignored: the spread `{ ...entry, id: nanoid() }` overwrites any id it carries.
- `nanoid()` is a `newId` parameter. The class's `add*` methods require it to be unused in the target collection; the pure functions accept any id, and the uniqueness lemmas carry freshness as a precondition.
- Ids are meant never to change on update, yet `Partial<WorkExperience>` and `Partial<Education>` may carry `id` (`src/store/resumeStore.ts:93`, `:98`). The model follows the code. `ResumeLaws.UpdateWorkExperienceCanDuplicateIds` shows an update that leaves two entries with one id, and the uniqueness lemmas for these two updates require the partial's id to be absent or unchanged. Custom-section item updates cannot change ids: their partial type has no `id`.

## Model

| member | source | states |
|---|---|---|
| Keyed.RemoveId | src/store/resumeStore.ts:186 | `filter(item => item.id !== id)`: no surviving element carries `id` (proved from the recursive calls' contracts) |
| Keyed.RemoveIdKeepsOthers | src/store/resumeStore.ts:186 | the survivors are a sub-multiset of the input, and every element whose id differs survives with its full multiplicity |
| Keyed.RemoveIdAbsent | src/store/resumeStore.ts:186 | removing an id no element carries returns the collection unchanged |
| Keyed.RemoveIdPresent | src/store/resumeStore.ts:186 | removing an id some element carries makes the collection strictly shorter |
| Keyed.RemoveIdAppend | src/store/resumeStore.ts:186 | filtering a concatenation is the concatenation of the filtered parts: survivors keep their relative order |
| Keyed.RemoveIdIdempotent | src/store/resumeStore.ts:186 | removing an id twice equals removing it once |
| Keyed.RemoveIdAfterAppend | src/store/resumeStore.ts:165-168 | removing the element just appended under a fresh id restores the collection |
| Keyed.AppendFreshKeepsUnique | src/store/resumeStore.ts:165-168 | appending under a fresh id keeps ids unique |
| Keyed.RemoveIdKeepsUnique | src/store/resumeStore.ts:186 | filtering keeps ids unique |
| Keyed.MapWhere | src/store/resumeStore.ts:176-178 | `map(item => item.id === id ? f(item) : item)`: same length; each matching element becomes `f` of it, every other element is unchanged; an absent id changes nothing |
| Keyed.MapWhereKeepsUnique | src/store/resumeStore.ts:176-178 | a map that keeps each matching element on its id keeps ids unique |
| ResumeTypes.DefaultPersonalInfoEmpty | src/store/resumeStore.ts:118-129 | `defaultPersonalInfo` has all ten string fields empty and `linkedin`/`website` absent |
| ResumeTypes.InitialDataEmpty | src/store/resumeStore.ts:131-141 | the initial document holds the default personal info and four empty collections |
| ResumeTypes.MergePersonalInfo | src/store/resumeStore.ts:154-157 | `{ ...old, ...partial }` on personal info: each key the partial gives takes its value, each omitted key keeps the old one |
| ResumeTypes.MergeWorkExperience | src/store/resumeStore.ts:177 | `{ ...item, ...experience }`: each given key (the id included) takes the partial's value, each omitted key keeps the old one |
| ResumeTypes.MergeEducation | src/store/resumeStore.ts:206 | `{ ...item, ...education }`: each given key (the id included) takes the partial's value, each omitted key keeps the old one |
| ResumeTypes.MergeCustomSectionItem | src/store/resumeStore.ts:292 | `{ ...secItem, ...item }`: each given key takes the partial's value, each omitted key keeps the old one |
| ResumeTypes.MergeCustomSectionItemIdempotent | src/store/resumeStore.ts:292 | merging the same item partial twice equals merging it once |
| ResumeTypes.InitialDataWellFormed | src/store/resumeStore.ts:131-141 | the initial document satisfies the unique-id invariant |
| ResumeTypes.MergePersonalInfoNoChange | src/store/resumeStore.ts:154-157 | merging the empty partial `{}` leaves personal info unchanged |
| ResumeTypes.MergePersonalInfoFull | src/store/resumeStore.ts:154-157 | a partial giving every key replaces personal info by those values |
| ResumeTypes.MergePersonalInfoTwice | src/store/resumeStore.ts:154-157 | two successive merges equal one merge of the combined partial |
| ResumeTypes.MergePersonalInfoDisjoint | src/store/resumeStore.ts:154-157 | merges of partials with no key in common commute, and equal one combined merge |
| ResumeTypes.MergePersonalInfoIdempotent | src/store/resumeStore.ts:154-157 | merging the same partial twice equals merging it once |
| ResumeTypes.MergeWorkExperienceKeepsId | src/store/resumeStore.ts:93 | a work-experience partial without `id`, or with the entry's own id, leaves the id as it was |
| ResumeTypes.MergeWorkExperienceIdempotent | src/store/resumeStore.ts:177 | merging the same work-experience partial twice equals merging it once |
| ResumeTypes.MergeEducationKeepsId | src/store/resumeStore.ts:98 | an education partial without `id`, or with the entry's own id, leaves the id as it was |
| ResumeTypes.MergeEducationIdempotent | src/store/resumeStore.ts:206 | merging the same education partial twice equals merging it once |
| ResumeTypes.MergeCustomSectionItemKeepsId | src/store/resumeStore.ts:110 | an item merge never changes the item's id (the partial type omits `id`) |
| ResumeActions.UpdatePersonalInfo | src/store/resumeStore.ts:150-159 | only `personalInfo` changes, and it becomes the shallow merge of the partial over the old record |
| ResumeActions.AddWorkExperience | src/store/resumeStore.ts:161-170 | only `workExperience` changes: the old entries are its prefix, followed by exactly one new last entry, the given fields under the new id |
| ResumeActions.UpdateWorkExperience | src/store/resumeStore.ts:172-180 | only `workExperience` changes; same length and order; matching entries are merged with the partial and the others are unchanged; an absent id is a no-op |
| ResumeActions.RemoveWorkExperience | src/store/resumeStore.ts:182-188 | only `workExperience` changes, and it becomes `Keyed.RemoveId` of the old entries: the entries with another id, in their original order; no survivor carries the id; every entry with another id survives with its multiplicity; an absent id is a no-op |
| ResumeActions.AddEducation | src/store/resumeStore.ts:190-199 | only `education` changes: old entries as prefix plus one new last entry under the new id |
| ResumeActions.UpdateEducation | src/store/resumeStore.ts:201-209 | only `education` changes; same length and order; matching entries merged, others unchanged; absent id is a no-op |
| ResumeActions.RemoveEducation | src/store/resumeStore.ts:211-217 | only `education` changes, and it becomes `Keyed.RemoveId` of the old entries: the others in their original order; no survivor carries the id; others survive with their multiplicity; absent id is a no-op |
| ResumeActions.AddSkill | src/store/resumeStore.ts:219-225 | only `skills` changes: old skills as prefix plus one new last skill under the new id |
| ResumeActions.RemoveSkill | src/store/resumeStore.ts:227-233 | only `skills` changes, and it becomes `Keyed.RemoveId` of the old skills: the others in their original order; no survivor carries the id; others survive with their multiplicity; absent id is a no-op |
| ResumeActions.AddCustomSection | src/store/resumeStore.ts:235-244 | only `customSections` changes: old sections as prefix plus one new section with the title, the new id and no items |
| ResumeActions.UpdateCustomSection | src/store/resumeStore.ts:246-254 | only `customSections` changes; matching sections get the new title; every section keeps its id and its items; others are unchanged; absent id is a no-op |
| ResumeActions.RemoveCustomSection | src/store/resumeStore.ts:256-264 | only `customSections` changes, and it becomes `Keyed.RemoveId` of the old sections: the others, whole and in their original order; no surviving section carries the id, so its items go with it; absent id is a no-op |
| ResumeActions.AddCustomSectionItem | src/store/resumeStore.ts:266-280 | only the items of sections with the section id change: the item under the one new id is appended to them (with unique section ids, at most one section); every other section is identical; absent section id is a no-op |
| ResumeActions.UpdateCustomSectionItem | src/store/resumeStore.ts:282-300 | every section keeps id, title and item count; sections with another id are identical; in matching sections, matching items are merged and the others are unchanged; absent section or item id is a no-op |
| ResumeActions.RemoveCustomSectionItem | src/store/resumeStore.ts:302-316 | matching sections keep only the items whose id differs; every other section is identical; absent section or item id is a no-op |
| ResumeActions.UpdatePersonalInfoIdempotent | src/store/resumeStore.ts:150-159 | applying the same personal-info update twice equals applying it once |
| ResumeActions.UpdatePersonalInfoTwice | src/store/resumeStore.ts:150-159 | two successive personal-info updates equal one update with the combined partial |
| ResumeLaws.AddWorkExperienceKeepsWellFormed | src/store/resumeStore.ts:161-170 | adding under a fresh id keeps all ids unique |
| ResumeLaws.UpdateWorkExperienceKeepsWellFormed | src/store/resumeStore.ts:172-180 | an update whose partial has no `id`, or the addressed id, keeps all ids unique |
| ResumeLaws.RemoveWorkExperienceKeepsWellFormed | src/store/resumeStore.ts:182-188 | removing keeps all ids unique |
| ResumeLaws.AddEducationKeepsWellFormed | src/store/resumeStore.ts:190-199 | adding under a fresh id keeps all ids unique |
| ResumeLaws.UpdateEducationKeepsWellFormed | src/store/resumeStore.ts:201-209 | an update whose partial has no `id`, or the addressed id, keeps all ids unique |
| ResumeLaws.RemoveEducationKeepsWellFormed | src/store/resumeStore.ts:211-217 | removing keeps all ids unique |
| ResumeLaws.AddSkillKeepsWellFormed | src/store/resumeStore.ts:219-225 | adding under a fresh id keeps all ids unique |
| ResumeLaws.RemoveSkillKeepsWellFormed | src/store/resumeStore.ts:227-233 | removing keeps all ids unique |
| ResumeLaws.AddCustomSectionKeepsWellFormed | src/store/resumeStore.ts:235-244 | adding a section under a fresh id keeps all ids unique |
| ResumeLaws.UpdateCustomSectionKeepsWellFormed | src/store/resumeStore.ts:246-254 | retitling keeps all ids unique |
| ResumeLaws.RemoveCustomSectionKeepsWellFormed | src/store/resumeStore.ts:256-264 | removing a section keeps all ids unique, including the items of every surviving section |
| ResumeLaws.AddCustomSectionItemKeepsWellFormed | src/store/resumeStore.ts:266-280 | adding an item under an id fresh in the target section keeps all ids unique |
| ResumeLaws.UpdateCustomSectionItemKeepsWellFormed | src/store/resumeStore.ts:282-300 | updating an item keeps all ids unique, whatever the partial |
| ResumeLaws.RemoveCustomSectionItemKeepsWellFormed | src/store/resumeStore.ts:302-316 | removing an item keeps all ids unique |
| ResumeLaws.UpdateWorkExperienceCanDuplicateIds | src/store/resumeStore.ts:93 | a partial carrying another entry's id turns a collection with unique ids into one with a duplicate |
| ResumeLaws.RemoveWorkExperienceUndoesAdd | src/store/resumeStore.ts:161-188 | removing the entry just added under a fresh id restores the whole document |
| ResumeLaws.RemoveEducationUndoesAdd | src/store/resumeStore.ts:190-217 | removing the entry just added under a fresh id restores the whole document |
| ResumeLaws.RemoveSkillUndoesAdd | src/store/resumeStore.ts:219-233 | removing the skill just added under a fresh id restores the whole document |
| ResumeLaws.RemoveCustomSectionUndoesAdd | src/store/resumeStore.ts:235-264 | removing the section just added under a fresh id restores the whole document |
| ResumeLaws.RemoveCustomSectionDropsItems | src/store/resumeStore.ts:235-280 | adding a section then an item gives that section holding the one item; removing the section removes both in one step |
| ResumeLaws.RemoveCustomSectionItemUndoesAdd | src/store/resumeStore.ts:266-316 | removing the item just added under a fresh id restores the whole document |
| ResumeLaws.UpdateWorkExperienceIdempotent | src/store/resumeStore.ts:172-180 | applying the same work-experience update twice equals applying it once |
| ResumeLaws.UpdateEducationIdempotent | src/store/resumeStore.ts:201-209 | applying the same education update twice equals applying it once |
| ResumeLaws.RemoveWorkExperienceIdempotent | src/store/resumeStore.ts:182-188 | removing the same id twice equals removing it once |
| ResumeLaws.RemoveEducationIdempotent | src/store/resumeStore.ts:211-217 | removing the same id twice equals removing it once |
| ResumeLaws.RemoveSkillIdempotent | src/store/resumeStore.ts:227-233 | removing the same id twice equals removing it once |
| ResumeLaws.RemoveCustomSectionIdempotent | src/store/resumeStore.ts:256-264 | removing the same section id twice equals removing it once |
| ResumeLaws.UpdateCustomSectionIdempotent | src/store/resumeStore.ts:246-254 | retitling the same section twice with one title equals doing it once |
| ResumeLaws.RemoveCustomSectionItemIdempotent | src/store/resumeStore.ts:302-316 | removing the same item id from the same section id twice equals doing it once |
| ResumeLaws.UpdateCustomSectionItemIdempotent | src/store/resumeStore.ts:282-300 | applying the same item update twice equals applying it once |
| ResumeLaws.AddTwoSkillsRemoveFirst | src/store/resumeStore.ts:219-233 | add two skills, then remove the first: the old skills followed by the second alone |
| ResumeLaws.UpdateEmailThenPhone | src/store/resumeStore.ts:118-159 | from the initial document, setting `email` then `phone` gives the default record with exactly those two fields set |
| Store.ResumeStore.constructor | src/store/resumeStore.ts:131-144 | the store starts as `initialState`, which satisfies the unique-id invariant |
| Store.ResumeStore.SetTemplate | src/store/resumeStore.ts:146 | only `template` changes |
| Store.ResumeStore.SetStep | src/store/resumeStore.ts:148 | only `currentStep` changes, to the given value, with no bounds check |
| Store.ResumeStore.UpdatePersonalInfo | src/store/resumeStore.ts:150-159 | `data` becomes `ResumeActions.UpdatePersonalInfo` of the old data; template and step are unchanged |
| Store.ResumeStore.AddWorkExperience | src/store/resumeStore.ts:161-170 | `data` becomes `ResumeActions.AddWorkExperience` of the old data; template and step unchanged; unique ids preserved |
| Store.ResumeStore.UpdateWorkExperience | src/store/resumeStore.ts:172-180 | `data` becomes `ResumeActions.UpdateWorkExperience` of the old data; unique ids preserved when the partial keeps the id |
| Store.ResumeStore.RemoveWorkExperience | src/store/resumeStore.ts:182-188 | `data` becomes `ResumeActions.RemoveWorkExperience` of the old data; unique ids preserved |
| Store.ResumeStore.AddEducation | src/store/resumeStore.ts:190-199 | `data` becomes `ResumeActions.AddEducation` of the old data; unique ids preserved |
| Store.ResumeStore.UpdateEducation | src/store/resumeStore.ts:201-209 | `data` becomes `ResumeActions.UpdateEducation` of the old data; unique ids preserved when the partial keeps the id |
| Store.ResumeStore.RemoveEducation | src/store/resumeStore.ts:211-217 | `data` becomes `ResumeActions.RemoveEducation` of the old data; unique ids preserved |
| Store.ResumeStore.AddSkill | src/store/resumeStore.ts:219-225 | `data` becomes `ResumeActions.AddSkill` of the old data; unique ids preserved |
| Store.ResumeStore.RemoveSkill | src/store/resumeStore.ts:227-233 | `data` becomes `ResumeActions.RemoveSkill` of the old data; unique ids preserved |
| Store.ResumeStore.AddCustomSection | src/store/resumeStore.ts:235-244 | `data` becomes `ResumeActions.AddCustomSection` of the old data; unique ids preserved |
| Store.ResumeStore.UpdateCustomSection | src/store/resumeStore.ts:246-254 | `data` becomes `ResumeActions.UpdateCustomSection` of the old data; unique ids preserved |
| Store.ResumeStore.RemoveCustomSection | src/store/resumeStore.ts:256-264 | `data` becomes `ResumeActions.RemoveCustomSection` of the old data; unique ids preserved |
| Store.ResumeStore.AddCustomSectionItem | src/store/resumeStore.ts:266-280 | `data` becomes `ResumeActions.AddCustomSectionItem` of the old data; unique ids preserved |
| Store.ResumeStore.UpdateCustomSectionItem | src/store/resumeStore.ts:282-300 | `data` becomes `ResumeActions.UpdateCustomSectionItem` of the old data; unique ids preserved |
| Store.ResumeStore.RemoveCustomSectionItem | src/store/resumeStore.ts:302-316 | `data` becomes `ResumeActions.RemoveCustomSectionItem` of the old data; unique ids preserved |
| Store.ResumeStore.ResetStore | src/store/resumeStore.ts:318 | from any state: template `classic`, step 0, the default personal info, all four collections empty |

## Left out

- Rendering (`src/components/resume/templates/*`, `src/components/resume/pdf/ResumeDocument.tsx`) is not part of this model. It maps the document to markup or PDF primitives: presentation through libraries whose source is not part of this model. That includes the template switch with its fallback to classic, the grouping of skills by level, the level-to-bar-width mapping and "Present" for current entries.
- `src/components/DarkModeToggle.tsx` is not part of this model: it is UI state, DOM class changes, `localStorage` and `window.matchMedia`, all of which are I/O.
- `formatDate` is not part of this model: it lives outside the store, and only the renderers call it.
- `nanoid()` randomness: ids are a `newId` parameter. A collision of random ids is not modelled; the class's `add*` methods require the id to be unused instead.
- zustand subscriptions, re-rendering and snapshot sharing are not modelled. Dafny datatype values are immutable, so an earlier snapshot can never change.
- Store.ResumeStore.SetStep: `currentStep` is a JavaScript `number`; it is modelled as `int`, so fractional, infinite and NaN steps are not represented.
- ResumeTypes.MergePersonalInfo: a partial that gives a required field the value `undefined` would leave `undefined` in that field; the model's partial cannot express this. For optional fields it can: `Some(None)` clears them.
- ResumeTypes.MergeWorkExperience: the same holds for a required key given as `undefined` in `Partial<WorkExperience>`.
- ResumeTypes.MergeEducation: the same holds for a required key given as `undefined` in `Partial<Education>`.
- ResumeTypes.MergeCustomSectionItem: the same holds for `title` or `bulletPoints` given as `undefined` in the item partial.
- ResumeActions.AddCustomSectionItem: `nanoid()` runs inside the `map` callback (`src/store/resumeStore.ts:270-274`), so if several sections shared the target id, each would get its own item id. The model gives them all the one `newId`. Only states with duplicate section ids differ, and no action sequence from the initial state with fresh ids reaches those (the `*KeepsWellFormed` lemmas).
- Properties that JavaScript objects may carry beyond their declared type are not modelled. This covers an extra `id` smuggled into a custom-section-item partial at run time; the model relies on the declared type, which omits `id`.
