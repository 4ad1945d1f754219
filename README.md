# Resume builder core in Dafny

A model of the logic under the markup of the resume builder, with proofs about it. It covers three parts:

- **The resume store** (`ResumeProvider`). It holds the collection `resumes` and the working copy `currentResume`. Its operations load a resume by id, save it (stamp `lastModified`, then replace by id), create one with defaults, delete by id, spread a partial update over the working copy, and look up canned "AI" text in a table with a fallback. The state before any call is the seeded sample resume.
- **The section editors.**
  - Work experience and education: append a blank record, set one property of the records with a given id, delete by id. The experience editor also rewrites a description with the canned bullet point.
  - Skills, certifications, languages and hobbies: append the trimmed input when it is not blank (then clear the input), and remove every entry equal to a value.
  - Each editor hands its new list to `updateResume` and raises the unsaved-change signal.
- **The sign-up form.**
  - `validate` fills an error record one rule at a time and clears a running verdict.
  - The input handler sets one field and clears that field's error.
  - The submit handler puts the sign-up call behind validation, the terms checkbox and the availability of the auth context.

Modules, one per file:

- `Seqs` (`seqs.dfy`): JavaScript `filter` and the conditional `map` used everywhere, with their order, membership and count properties.
- `Text` (`text.dfy`): ECMAScript white space and `String.prototype.trim`.
- `ResumeContext` (`resume_context.dfy`): the records, partial updates (`Patch`, `Merge`), the id operations on the collection, the canned-content table, and the `ResumeProvider` class.
- `ExperienceSection`, `EducationSection`, `ListSections` (`experience_section.dfy`, `education_section.dfy`, `list_sections.dfy`): the editors.
  - The four string-list editors have the same code, so one `ListEditor` class, parameterised by `Section`, models all four.
- `Signup` (`signup.dfy`): the form, the rules, the email pattern and the submit guards.

How the model represents the source:

- **State.** The store and the form are classes whose methods state the whole new state. The list transforms and rules are functions, and lemmas relate them.
- **Clock and fresh ids.** The clock (`new Date().toISOString()`) and fresh ids (`Date.now().toString()`) are parameters (`now`, `freshId`, `newId`).
- **The unsaved-change callback.** It is the boolean `unsaved` that each handler returns.
- **The auth context's `signup` function.** Whether it exists is the parameter `authAvailable`. The call itself is the outcome `SignupCalled` with its four arguments in the source's order.

## Model

| member | source | states |
|---|---|---|
| Seqs.Filter | src/context/ResumeContext.tsx:129 | `filter` keeps only elements that pass the test and is never longer than the input |
| Seqs.FilterCounts | src/components/resume-builder/sections/SkillsSection.tsx:27 | a kept value occurs as often as in the input, a dropped value not at all |
| Seqs.FilterMembers | src/components/resume-builder/sections/SkillsSection.tsx:27 | x is in the filtered list iff x is in the input and passes the test |
| Seqs.FilterIsSubsequence | src/context/ResumeContext.tsx:129 | `filter` only deletes: what it keeps is a subsequence of the input, in the input's order |
| Seqs.FilterAllKept | src/context/ResumeContext.tsx:129 | filtering a list whose every element passes returns the list unchanged |
| Seqs.FilterAppend | src/components/resume-builder/sections/ExperienceSection.tsx:39 | filtering a concatenation is concatenating the filtered parts |
| Seqs.FilterIdempotent | src/components/resume-builder/sections/LanguagesSection.tsx:27 | filtering twice with the same test is filtering once |
| Seqs.FilterKeepsKeysDistinct | src/context/ResumeContext.tsx:129 | if no two entries share a key before filtering, none share one after |
| Seqs.FilterDropsAppended | src/components/resume-builder/sections/ExperienceSection.tsx:24-40 | when every old element passes and the appended one does not, filtering undoes the append |
| Seqs.AppendFreshKeepsKeysDistinct | src/context/ResumeContext.tsx:123 | appending an element whose key no element carries keeps keys distinct |
| Seqs.MapWhere | src/context/ResumeContext.tsx:93 | conditional `map`: same length; each position is changed iff its element matches, others stay as they were |
| Text.IsWhitespace | src/components/auth/Signup.tsx:74 | the white-space class of `trim()` and of `\s`; no printable ASCII character other than the space is in it, so '@' and '.' never are |
| Text.SkipLeading | src/components/resume-builder/sections/SkillsSection.tsx:16 | the forward scan of `trim()` stops at the first character that is not white space (or the end), and everything it passed is white space |
| Text.SkipTrailing | src/components/resume-builder/sections/SkillsSection.tsx:16 | the backward scan stops just after the last character that is not white space (or at its lower bound), and everything it passed is white space |
| Text.Trim | src/components/resume-builder/sections/SkillsSection.tsx:16 | `trim()` returns a string that neither starts nor ends with white space, no longer than the input, and empty iff the input is all white space |
| Text.TrimIsInfix | src/components/resume-builder/sections/SkillsSection.tsx:18 | the trimmed text is an infix of the input between an all-white-space prefix and an all-white-space suffix |
| Text.TrimIdempotent | src/components/resume-builder/sections/SkillsSection.tsx:18 | trimming a trimmed string changes nothing |
| Text.TrimmedIsFixed | src/components/resume-builder/sections/SkillsSection.tsx:18 | a string without white space at either end is its own trim |
| ResumeContext.FieldsDetermineResume | src/context/ResumeContext.tsx:21-38 | helper for the Merge lemmas: two resumes that agree on all sixteen properties of the `Resume` interface are equal |
| ResumeContext.Merge | src/context/ResumeContext.tsx:138 | `{ ...cur, ...u }`: each property present in the update takes its value from it; every other property, `id` included, keeps its old value |
| ResumeContext.MergeNoChange | src/context/ResumeContext.tsx:136-141 | an empty update leaves the working copy equal to what it was |
| ResumeContext.MergeThen | src/context/ResumeContext.tsx:136-141 | two successive updates are one update with the later one winning on shared properties |
| ResumeContext.MergeIdempotent | src/context/ResumeContext.tsx:136-141 | applying the same update twice is applying it once |
| ResumeContext.Stamp | src/context/ResumeContext.tsx:92 | the saved copy carries the clock value in `lastModified` and equals the input on every other property |
| ResumeContext.FindById | src/context/ResumeContext.tsx:83 | `find`: a result exists iff some entry has the id, and then it is the first entry with that id |
| ResumeContext.ReplaceById | src/context/ResumeContext.tsx:93 | same length and order; every entry with the saved id becomes the saved copy, all others are unchanged |
| ResumeContext.ReplaceKeepsIds | src/context/ResumeContext.tsx:93 | the replacement keeps the id at every position, so distinct ids stay distinct |
| ResumeContext.ReplaceMissingId | src/context/ResumeContext.tsx:93 | saving a resume whose id is not in the collection leaves the collection unchanged |
| ResumeContext.ReplacePersists | src/context/ResumeContext.tsx:93 | saving a resume whose id is in the collection puts the saved copy into it |
| ResumeContext.WithoutId | src/context/ResumeContext.tsx:129 | after delete, no entry has the id; the survivors keep their order; every entry with another id survives as often as it occurred before |
| ResumeContext.WithoutIdKeepsUniqueIds | src/context/ResumeContext.tsx:129 | delete keeps ids distinct |
| ResumeContext.WithoutPresentId | src/context/ResumeContext.tsx:129 | with distinct ids, deleting an id that is present removes exactly one resume |
| ResumeContext.WithoutMissingId | src/context/ResumeContext.tsx:129 | deleting an id nobody has changes nothing |
| ResumeContext.AppendFreshKeepsUniqueIds | src/context/ResumeContext.tsx:123 | appending a resume with an unused id keeps ids distinct |
| ResumeContext.NewResume | src/context/ResumeContext.tsx:104-121 | the created resume has the given id and clock value, title 'New Resume', template 'modern', colour '#3B82F6', and every other property empty |
| ResumeContext.SampleResume | src/context/ResumeContext.tsx:165-195 | the seeded sample has id '1', the seeding time in `lastModified`, template 'modern', colour '#3B82F6', one job and one school |
| ResumeContext.AIContent | src/context/ResumeContext.tsx:149-155 | the lookup always yields non-empty text; it differs from "AI-generated content" iff the type is one of 'summary', 'bulletPoint', 'jobDescription' |
| ResumeContext.ResumeProvider.constructor | src/context/ResumeContext.tsx:164-198 | the seeded state: exactly one resume, id '1', the sample; nothing open; ids distinct |
| ResumeContext.ResumeProvider.LoadResume | src/context/ResumeContext.tsx:82-87 | the working copy becomes the first resume with the id if there is one, else stays; the collection is untouched |
| ResumeContext.ResumeProvider.SaveResume | src/context/ResumeContext.tsx:89-101 | collection becomes the replace-by-id with the stamped copy; working copy becomes the stamped copy even if its id is absent (then the collection is unchanged); distinct ids stay distinct |
| ResumeContext.ResumeProvider.CreateResume | src/context/ResumeContext.tsx:103-126 | appends exactly the new default resume at the end, opens it and returns its id; with a fresh id, ids stay distinct |
| ResumeContext.ResumeProvider.DeleteResume | src/context/ResumeContext.tsx:128-134 | collection becomes the filter-by-id, one resume shorter when the id was present and ids were distinct; working copy becomes null iff its id was the deleted one, else unchanged; distinct ids stay distinct |
| ResumeContext.ResumeProvider.UpdateResume | src/context/ResumeContext.tsx:136-141 | no-op without a working copy; otherwise the working copy becomes the merge; the collection is untouched |
| ResumeContext.ResumeProvider.GenerateAIContent | src/context/ResumeContext.tsx:143-161 | returns the table entry for the type (non-empty), changing neither field |
| ResumeContext.ResumeProvider.AutoSaveTick | src/context/ResumeContext.tsx:72-80 | one timer firing saves the working copy when there is one and does nothing otherwise |
| ExperienceSection.Blank | src/components/resume-builder/sections/ExperienceSection.tsx:15-22 | the new entry has the given id and every other property empty |
| ExperienceSection.Set | src/components/resume-builder/sections/ExperienceSection.tsx:32 | `{ ...exp, [field]: value }` sets that property and keeps the others |
| ExperienceSection.Add | src/components/resume-builder/sections/ExperienceSection.tsx:14-26 | one more entry at the end, old entries unchanged, the new one has the given id and empty text |
| ExperienceSection.Update | src/components/resume-builder/sections/ExperienceSection.tsx:30-34 | same length and order; entries with the id get the property set, others unchanged |
| ExperienceSection.Delete | src/components/resume-builder/sections/ExperienceSection.tsx:38-40 | no entry with the id remains; survivors keep their order; the list does not grow; every entry with another id survives as often as it occurred before |
| ExperienceSection.UpdateMissingId | src/components/resume-builder/sections/ExperienceSection.tsx:31-33 | updating an id nobody has is the identity |
| ExperienceSection.UpdateKeepsIds | src/components/resume-builder/sections/ExperienceSection.tsx:31-33 | updating a property other than `id` keeps every id, so distinct ids stay distinct |
| ExperienceSection.UpdateLastWriteWins | src/components/resume-builder/sections/ExperienceSection.tsx:31-33 | two updates of the same property other than `id`: the second alone decides the result |
| ExperienceSection.AIRewrite | src/components/resume-builder/sections/ExperienceSection.tsx:44-47 | the rewrite sets the description of the entries with the id to the canned bullet text and changes nothing else |
| ExperienceSection.AddKeepsUniqueIds | src/components/resume-builder/sections/ExperienceSection.tsx:24-26 | adding with an unused id keeps ids distinct |
| ExperienceSection.DeleteUndoesAdd | src/components/resume-builder/sections/ExperienceSection.tsx:38-40 | deleting the id just added (unused before) restores the list |
| ExperienceSection.DeleteKeepsUniqueIds | src/components/resume-builder/sections/ExperienceSection.tsx:38-40 | delete keeps ids distinct |
| ExperienceSection.DeleteIdempotent | src/components/resume-builder/sections/ExperienceSection.tsx:38-40 | deleting twice is deleting once |
| ExperienceSection.HandleAddExperience | src/components/resume-builder/sections/ExperienceSection.tsx:14-28 | the working copy's experience list becomes Add of the old one, nothing else changes, the unsaved signal is raised |
| ExperienceSection.HandleUpdateExperience | src/components/resume-builder/sections/ExperienceSection.tsx:30-36 | the experience list becomes Update of the old one, nothing else changes, the signal is raised |
| ExperienceSection.HandleDeleteExperience | src/components/resume-builder/sections/ExperienceSection.tsx:38-42 | the experience list becomes Delete of the old one, nothing else changes, the signal is raised |
| ExperienceSection.HandleAIRewrite | src/components/resume-builder/sections/ExperienceSection.tsx:44-51 | the experience list becomes the rewrite with the canned bullet text, the signal is raised |
| EducationSection.Blank | src/components/resume-builder/sections/EducationSection.tsx:15-21 | the new entry has the given id and empty school, degree and dates |
| EducationSection.Set | src/components/resume-builder/sections/EducationSection.tsx:31 | `{ ...edu, [field]: value }` sets that property and keeps the others |
| EducationSection.Add | src/components/resume-builder/sections/EducationSection.tsx:14-25 | one more entry at the end with empty school, degree and dates; old entries unchanged |
| EducationSection.Update | src/components/resume-builder/sections/EducationSection.tsx:29-33 | same length and order; entries with the id get the property set, others unchanged |
| EducationSection.Delete | src/components/resume-builder/sections/EducationSection.tsx:37-40 | no entry with the id remains; survivors keep their order; every entry with another id survives as often as it occurred before |
| EducationSection.UpdateMissingId | src/components/resume-builder/sections/EducationSection.tsx:30-32 | updating an id nobody has is the identity |
| EducationSection.UpdateKeepsIds | src/components/resume-builder/sections/EducationSection.tsx:30-32 | updating a property other than `id` keeps every id |
| EducationSection.AddKeepsUniqueIds | src/components/resume-builder/sections/EducationSection.tsx:23-25 | adding with an unused id keeps ids distinct |
| EducationSection.DeleteUndoesAdd | src/components/resume-builder/sections/EducationSection.tsx:37-40 | deleting the id just added (unused before) restores the list |
| EducationSection.DeleteKeepsUniqueIds | src/components/resume-builder/sections/EducationSection.tsx:37-40 | delete keeps ids distinct |
| EducationSection.HandleAddEducation | src/components/resume-builder/sections/EducationSection.tsx:14-27 | the education list becomes Add of the old one, nothing else changes, the signal is raised |
| EducationSection.HandleUpdateEducation | src/components/resume-builder/sections/EducationSection.tsx:29-35 | the education list becomes Update of the old one, the signal is raised |
| EducationSection.HandleDeleteEducation | src/components/resume-builder/sections/EducationSection.tsx:37-41 | the education list becomes Delete of the old one, the signal is raised |
| ListSections.EntriesPatch | src/components/resume-builder/sections/SkillsSection.tsx:17-19 | the update object carries the section's own list property, with the new list, and no other property |
| ListSections.MergeEntriesPatch | src/components/resume-builder/sections/SkillsSection.tsx:17-19 | the update `{ skills: xs }` (or the other three) replaces that list and no other property |
| ListSections.AddTrimmed | src/components/resume-builder/sections/SkillsSection.tsx:16-18 | with a non-blank input: one more entry, the trimmed input, at the end, old entries unchanged; with a blank input: no change |
| ListSections.RemoveAll | src/components/resume-builder/sections/SkillsSection.tsx:27 | the value no longer occurs; survivors keep their order; every other value occurs as often as before |
| ListSections.AddKeepsClean | src/components/resume-builder/sections/HobbiesSection.tsx:16-18 | entries added by the handler are non-empty and trimmed, so a clean list stays clean |
| ListSections.AddCountsOneMore | src/components/resume-builder/sections/SkillsSection.tsx:18 | add does not deduplicate: the trimmed value occurs once more than before |
| ListSections.RemoveAbsent | src/components/resume-builder/sections/SkillsSection.tsx:27 | removing an absent value is the identity |
| ListSections.RemoveIdempotent | src/components/resume-builder/sections/CertificationsSection.tsx:27 | removing twice is removing once |
| ListSections.RemoveUndoesAdd | src/components/resume-builder/sections/LanguagesSection.tsx:15-29 | removing the value just added (absent before) restores the list |
| ListSections.ListEditor.constructor | src/components/resume-builder/sections/SkillsSection.tsx:11 | the input buffer starts empty |
| ListSections.ListEditor.Type | src/components/resume-builder/sections/HobbiesSection.tsx:49 | the input's change handler stores the typed value |
| ListSections.ListEditor.HandleAdd | src/components/resume-builder/sections/SkillsSection.tsx:15-23 | signal raised and buffer cleared iff the trimmed buffer is non-empty; the section's list becomes AddTrimmed of the old one; other lists and properties unchanged |
| ListSections.ListEditor.HandleRemove | src/components/resume-builder/sections/SkillsSection.tsx:25-30 | the section's list becomes RemoveAll of the old one; other lists and properties unchanged; signal raised |
| Signup.Form.With | src/components/auth/Signup.tsx:116-117 | `{ ...prev, [name]: value }` sets exactly that field |
| Signup.MatchesEmailPattern | src/components/auth/Signup.tsx:74 | the regular expression `^[^\s@]+@[^\s@]+\.[^\s@]+$` as a cut of the string into three plain runs; a match has at least five characters |
| Signup.LooksLikeEmail | src/components/auth/Signup.tsx:74 | the executable scan used in place of the regular expression; a string it accepts has at least five characters |
| Signup.ScanImpliesPattern | src/components/auth/Signup.tsx:74 | a string with no white space, exactly one '@' not in first place, and a '.' at least two after it and not last, matches `^[^\s@]+@[^\s@]+\.[^\s@]+$` |
| Signup.PatternImpliesScan | src/components/auth/Signup.tsx:74 | every match of the pattern passes that scan |
| Signup.EmailCheckMatchesPattern | src/components/auth/Signup.tsx:74-78 | the scan and the pattern accept the same strings |
| Signup.PatternNotBlank | src/components/auth/Signup.tsx:75-78 | an email the pattern matches contains '@', so it is never blank and never gets the 'required' message |
| Signup.NameError | src/components/auth/Signup.tsx:66-72 | no name error iff the trimmed name is non-empty and the untrimmed length is at least 2; 'Name is required' iff the name is blank; 'Name must be at least 2 characters' iff it is not blank but shorter than 2 |
| Signup.EmailError | src/components/auth/Signup.tsx:74-81 | no email error iff the email matches the pattern (a match is never blank); 'Email is required' iff the email is blank; 'Enter a valid email address' iff it is not blank and does not match |
| Signup.MobileError | src/components/auth/Signup.tsx:83-90 | no mobile error iff the length is at least 10, whatever the characters (the digits pattern is never applied); 'Mobile is required' iff it is empty; 'Enter a valid mobile number' iff it has 1 to 9 characters |
| Signup.PasswordError | src/components/auth/Signup.tsx:92-98 | no password error iff the length is at least 6; 'Password is required' iff it is empty; 'Password must be at least 6 characters' iff it has 1 to 5 characters |
| Signup.ConfirmError | src/components/auth/Signup.tsx:100-106 | no confirmation error iff it is non-empty and equal to the password; 'Passwords do not match' iff it is non-empty and differs; 'Please confirm your password' iff it is empty |
| Signup.MeetsRules | src/components/auth/Signup.tsx:62-110 | the rules stated without the messages; a form that meets them has a name of at least 2, an email of at least 5, a mobile of at least 10 and a confirmation of at least 6 characters |
| Signup.ErrorsFor | src/components/auth/Signup.tsx:62-110 | the error record is all empty iff the form meets every rule |
| Signup.CheckName | src/components/auth/Signup.tsx:66-72 | the name block writes NameError into the record and keeps the verdict iff there is no name error |
| Signup.CheckEmail | src/components/auth/Signup.tsx:74-81 | the email block writes EmailError and keeps the verdict iff there is no email error |
| Signup.CheckMobile | src/components/auth/Signup.tsx:83-90 | the mobile block writes MobileError and keeps the verdict iff there is no mobile error |
| Signup.CheckPassword | src/components/auth/Signup.tsx:92-98 | the password block writes PasswordError and keeps the verdict iff there is no password error |
| Signup.CheckConfirm | src/components/auth/Signup.tsx:100-106 | the confirmation block writes ConfirmError and keeps the verdict iff there is no confirmation error |
| Signup.ValidateFields | src/components/auth/Signup.tsx:62-110 | the error record holds each rule's message; the verdict is true iff the record is all empty, iff the form meets every rule |
| Signup.SignupForm.constructor | src/components/auth/Signup.tsx:24-42 | empty data, no errors, terms unticked |
| Signup.SignupForm.HandleInputChange | src/components/auth/Signup.tsx:113-118 | exactly the named field changes and exactly its error is cleared |
| Signup.SignupForm.SetAgreedToTerms | src/components/auth/Signup.tsx:304 | the checkbox handler stores the ticked state |
| Signup.SignupForm.Validate | src/components/auth/Signup.tsx:62-111 | stores the error record for the current data and returns true iff the data meets every rule |
| Signup.SignupForm.HandleSubmit | src/components/auth/Signup.tsx:120-149 | sign-up is called iff the form is valid, the terms are ticked and the auth context is there, with email, mobile, password, name; an invalid form stops before the terms box is looked at; a valid form with the terms ticked and no auth context stops there |

## Left out

- Toasts and console logging in every handler: they are notifications that hold no state.
- The auto-save timer (`setInterval`, every 15 s, re-armed when the working copy changes) is not modelled as a timer. One firing is `AutoSaveTick`.
- The 1500 ms delay and the `loading` flag of `generateAIContent` and `saveResume`: the lookup is modelled as synchronous. The try/catch around it cannot fail on the modelled path.
- The `context` argument of `generateAIContent` is unused by the source and is not modelled.
- Own-property lookup only: keys inherited from `Object.prototype` (such as "toString") would index the table in JavaScript. The model treats them as unknown types that get the fallback text.
- Time and id sources (`Date.now()`, `new Date().toISOString()`) are parameters. ISO-8601 formatting is not modelled.
- ResumeContext.ResumeProvider.CreateResume: ids are distinct afterwards only when the caller passes an id that is not yet used. `Date.now()` does not guarantee that.
- ResumeContext.ResumeProvider.constructor: the collection is empty before the seeding effect runs. The model starts from the state after that effect.
- Section handlers (experience, education, list editors) require an open resume, because each component renders nothing without one.
- ExperienceSection.HandleAIRewrite: the source reads `currentResume` from a closure captured before the await. An edit made during the delay would be overwritten. With the synchronous lookup this interleaving does not arise.
- The Enter-key handlers of the list editors call the add handler. They are not modelled separately.
- Signup.SignupForm.HandleSubmit: the outcome stops at the sign-up call. The success toast, the navigation to the dashboard and the error toast that follow it are notifications and routing, so they are left out. Whether the call succeeds depends on the auth context, which is not part of this model.
- Lengths are counted in characters. JavaScript counts UTF-16 code units, so characters outside the Basic Multilingual Plane count twice there.
- The password-visibility toggles, routing, the dashboard, the header and summary sections, the AI panel, the unsaved-changes and `beforeunload` flow, `formatDate`, and all markup are not modelled. They are presentation or navigation, or they delegate to library code.
