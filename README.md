# Resume builder core in Dafny

This project models the core of a browser resume builder written in TypeScript. It has three parts.

- **Markdown export and import** (`src/utils/markdownUtils.ts`).
  - `resumeToMarkdown` writes the resume as Markdown. It uses a fixed section order and leaves out empty sections.
  - `parseMarkdown` reads such text back in one pass over its lines. The pass keeps the current section and the entry that is open for detail lines. It ends by trimming the summary and every description.
- **Resume state** (`src/contexts/ResumeContext.tsx`). These operations replace the provider's single state value:
  - `updatePersonalInfo` and `updateSummary`;
  - add, update-by-id and remove-by-id for experience, education and skill entries.
- **Link formatting** (`formatUrl` in `src/lib/utils.ts`).

How each part is modelled:

- **The writer.** `MarkdownWriter.ResumeToMarkdown` grows a string section by section and entry by entry, as the source does. It is proved equal to `Markdown(r)`, the text of the list of lines `MarkdownLines(r)`.
- **The reader.** `MarkdownReader.ParseMarkdown` runs the source's loop over the lines. It updates `section`, whether an entry is open, and the result record in place. It is proved equal to `Parse`, which is `Finish` applied to a left fold of `Step` over the lines.
- **The regular expressions.** The reader's regexes are unanchored and greedy; `LinePatterns` gives them exact meanings:
  - `.` does not match a line terminator;
  - `(.+) at (.+)` splits at the last usable separator;
  - `- (.+): (.+)` starts at the first usable `- `;
  - `URL: (.+)` takes the rest of the line after the first `URL: `.
- **The JavaScript string functions.** `JsText` models `trim`, `split`, `join`, `includes`, `replace` with a string pattern, and `toLowerCase`.
- **The resume state.** Each operation is a function from the old resume to the new one, proved to change only its own field. The class `ResumeProvider` holds the state in a field, and its methods replace it with these functions.

The main theorem is `DocumentRoundTrip.ParseMarkdownRoundTrip`. Take any resume whose fields the reader can recognise (`Readable`: one-line, trimmed values that do not look like headings, list items or date lines). Parsing the text written for it gives back `ReadBack(r)`, which means:

- **personal information:**
  - the title and the contact fields come back; empty fields come back absent;
  - the name comes back as the name heading is read (see below);
- **summary:** comes back when it is non-empty;
- **experience, education, skill, project and language entries:** all come back in order, with fresh ids. An experience or education entry whose end date is the word `Present` comes back as current;
- **certifications, achievements, activities and badges:** nothing comes back. They are written but never read.

Entry ids come from the clock and a random number in the source. Here they come from a parameter `ids`, applied to the entry kind and the number of entries of that kind already read.

## Model

| member | source | states |
|---|---|---|
| `UrlFormat.FormatUrl` | src/lib/utils.ts:17-23 | The result is empty exactly when the link is empty. A non-empty result starts with `http://` or `https://`. The result is the link itself or `https://` followed by it, so the link is always its suffix. |
| `UrlFormat.FormatUrlKeepsScheme` | src/lib/utils.ts:19-21 | A link that already starts with `http://` or `https://` is returned unchanged. |
| `UrlFormat.FormatUrlAddsHttps` | src/lib/utils.ts:22 | Any other non-empty link becomes `https://` followed by the link. |
| `UrlFormat.FormatUrlIdempotent` | src/lib/utils.ts:17-23 | Formatting a formatted link changes nothing. |
| `ResumeStore.MergeInfoFields` | src/contexts/ResumeContext.tsx:145-150 | Merging a partial personal record takes each field the partial supplies and keeps every other field; an empty partial changes nothing. |
| `ResumeStore.MergeInfoIdempotent` | src/contexts/ResumeContext.tsx:145-150 | Merging the same partial record twice equals merging it once. |
| `ResumeStore.PatchExperienceLaws` | src/contexts/ResumeContext.tsx:168 | `{ ...exp, ...patch }`: an empty patch changes nothing, applying a patch twice equals applying it once, and a patch without an id keeps the entry's id. |
| `ResumeStore.Without` | src/contexts/ResumeContext.tsx:176 | `filter` by id: no remaining entry has the id, every remaining entry comes from the list, and the list never grows. |
| `ResumeStore.WithoutCount` | src/contexts/ResumeContext.tsx:176 | The filter keeps every entry without the id exactly as many times as the list holds it, and no entry with the id. |
| `ResumeStore.WithoutOne` | src/contexts/ResumeContext.tsx:176 | On one entry the filter keeps it exactly when its id differs; with `WithoutConcat` this fixes `Without` as the filter that keeps order. |
| `ResumeStore.ReplaceAt` | src/contexts/ResumeContext.tsx:167-169 | `map` by id keeps the length and the order; position k holds the patched entry when its id matches and the old entry otherwise. |
| `ResumeStore.ReplaceAbsent` | src/contexts/ResumeContext.tsx:164-171 | Updating an id that no entry has leaves the list unchanged. |
| `ResumeStore.WithoutKeeps` | src/contexts/ResumeContext.tsx:176 | Every entry whose id differs survives the removal. |
| `ResumeStore.WithoutConcat` | src/contexts/ResumeContext.tsx:176 | Removal works piece by piece over a concatenation, so the kept entries stay in their order. |
| `ResumeStore.WithoutAbsent` | src/contexts/ResumeContext.tsx:173-178 | Removing an id that no entry has leaves the list unchanged. |
| `ResumeStore.WithoutIdempotent` | src/contexts/ResumeContext.tsx:173-178 | Removing an id twice equals removing it once. |
| `ResumeStore.WithoutAdded` | src/contexts/ResumeContext.tsx:156-178 | Appending an entry and then removing its id equals removing that id from the list before the append. |
| `ResumeStore.PersonalInfoUpdated` | src/contexts/ResumeContext.tsx:145-150 | Only `personalInfo` changes, and it becomes the merge of the old record and the partial. |
| `ResumeStore.SummaryUpdated` | src/contexts/ResumeContext.tsx:152-154 | Only `summary` changes, and it becomes the given text. |
| `ResumeStore.ExperienceAdded` | src/contexts/ResumeContext.tsx:156-162 | Only `experience` changes. It grows by one entry, the given fields with the given id, after all the old entries, which are unchanged and in order. |
| `ResumeStore.ExperienceUpdated` | src/contexts/ResumeContext.tsx:164-171 | Only `experience` changes. Its length and order are kept; entries with the id are patched and all others are unchanged. |
| `ResumeStore.ExperienceRemoved` | src/contexts/ResumeContext.tsx:173-178 | Only `experience` changes. No entry keeps the id, an old entry survives exactly when its id differs, nothing new appears, and the list is the order-keeping filter `Without` of the old one. |
| `ResumeStore.EducationAdded` | src/contexts/ResumeContext.tsx:180-186 | The `addEducation` counterpart of `ExperienceAdded`. |
| `ResumeStore.EducationUpdated` | src/contexts/ResumeContext.tsx:188-195 | The `updateEducation` counterpart of `ExperienceUpdated`. |
| `ResumeStore.EducationRemoved` | src/contexts/ResumeContext.tsx:197-202 | Only `education` changes. No entry keeps the id, an old entry survives exactly when its id differs, nothing new appears, and the list is `Without` of the old one. |
| `ResumeStore.SkillAdded` | src/contexts/ResumeContext.tsx:204-210 | The `addSkill` counterpart of `ExperienceAdded`. |
| `ResumeStore.SkillUpdated` | src/contexts/ResumeContext.tsx:212-217 | The `updateSkill` counterpart of `ExperienceUpdated`. |
| `ResumeStore.SkillRemoved` | src/contexts/ResumeContext.tsx:219-224 | Only `skills` changes. No skill keeps the id, an old skill survives exactly when its id differs, nothing new appears, and the list is `Without` of the old one. |
| `ResumeStore.ExperienceAbsentId` | src/contexts/ResumeContext.tsx:164-178 | Updating or removing an experience id that no entry has leaves the whole resume unchanged. |
| `ResumeStore.EducationAbsentId` | src/contexts/ResumeContext.tsx:188-202 | The same for education ids. |
| `ResumeStore.SkillAbsentId` | src/contexts/ResumeContext.tsx:212-224 | The same for skill ids. |
| `ResumeStore.AddThenRemoveExperience` | src/contexts/ResumeContext.tsx:156-178 | Adding an experience and then removing its id equals removing that id from the resume before the add. |
| `ResumeStore.RemoveExperienceOrder` | src/contexts/ResumeContext.tsx:173-178 | Removal from a list split in two is removal from each part, concatenated in the original order. |
| `ResumeStore.RemoveEducationOrder` | src/contexts/ResumeContext.tsx:197-202 | The education entries `removeEducation` keeps are each part's kept entries, concatenated in the original order. |
| `ResumeStore.RemoveSkillOrder` | src/contexts/ResumeContext.tsx:219-224 | The skills `removeSkill` keeps are each part's kept skills, concatenated in the original order. |
| `ResumeStore.ResumeProvider.constructor` | src/contexts/ResumeContext.tsx:143 | The state starts as the default resume. |
| `ResumeStore.ResumeProvider.UpdatePersonalInfo` | src/contexts/ResumeContext.tsx:145-150 | The state becomes `PersonalInfoUpdated` of the old state. |
| `ResumeStore.ResumeProvider.UpdateSummary` | src/contexts/ResumeContext.tsx:152-154 | The state becomes `SummaryUpdated` of the old state. |
| `ResumeStore.ResumeProvider.AddExperience` | src/contexts/ResumeContext.tsx:156-162 | The state becomes `ExperienceAdded` of the old state. |
| `ResumeStore.ResumeProvider.UpdateExperience` | src/contexts/ResumeContext.tsx:164-171 | The state becomes `ExperienceUpdated` of the old state. |
| `ResumeStore.ResumeProvider.RemoveExperience` | src/contexts/ResumeContext.tsx:173-178 | The state becomes `ExperienceRemoved` of the old state. |
| `ResumeStore.ResumeProvider.AddEducation` | src/contexts/ResumeContext.tsx:180-186 | The state becomes `EducationAdded` of the old state. |
| `ResumeStore.ResumeProvider.UpdateEducation` | src/contexts/ResumeContext.tsx:188-195 | The state becomes `EducationUpdated` of the old state. |
| `ResumeStore.ResumeProvider.RemoveEducation` | src/contexts/ResumeContext.tsx:197-202 | The state becomes `EducationRemoved` of the old state. |
| `ResumeStore.ResumeProvider.AddSkill` | src/contexts/ResumeContext.tsx:204-210 | The state becomes `SkillAdded` of the old state. |
| `ResumeStore.ResumeProvider.UpdateSkill` | src/contexts/ResumeContext.tsx:212-217 | The state becomes `SkillUpdated` of the old state. |
| `ResumeStore.ResumeProvider.RemoveSkill` | src/contexts/ResumeContext.tsx:219-224 | The state becomes `SkillRemoved` of the old state. |
| `JsText.TrimStart` | src/utils/markdownUtils.ts:151 | The result is no longer than the string and does not start with white space, and every character dropped from the front is white space. |
| `JsText.TrimStartSuffix` | src/utils/markdownUtils.ts:151 | What `trimStart` keeps is exactly the rest of the string after the leading white space. |
| `JsText.TrimEnd` | src/utils/markdownUtils.ts:151 | The result is a prefix of the string that does not end with white space, and everything dropped is white space. |
| `JsText.Trim` | src/utils/markdownUtils.ts:151 | `trim()` never lengthens a string, and its result has no white space at either end. |
| `JsText.TrimIdempotent` | src/utils/markdownUtils.ts:151 | Trimming twice equals trimming once. |
| `JsText.TrimStartConcat` | src/utils/markdownUtils.ts:151 | The leading white space of a concatenation comes from its left part first. |
| `JsText.TrimEndConcat` | src/utils/markdownUtils.ts:151 | The trailing white space of a concatenation comes from its right part first. |
| `JsText.IndexOf` | src/utils/markdownUtils.ts:265 | The result is absent exactly when the pattern does not occur; otherwise the pattern occurs there and nowhere earlier. |
| `JsText.RemoveFirst` | src/utils/markdownUtils.ts:265 | `replace` with a string pattern leaves a string without the pattern unchanged, and otherwise shortens it by exactly the pattern's length. |
| `JsText.RemoveFirstOfPrefix` | src/utils/markdownUtils.ts:265 | When the string starts with the pattern, `replace` removes exactly that prefix. |
| `JsText.ContainsSkipPrefix` | src/utils/markdownUtils.ts:260-268 | When the first character of the pattern is not in the left part, the concatenation contains the pattern exactly when the right part does. |
| `JsText.Split` | src/utils/markdownUtils.ts:126 | `split` on one character returns at least one piece, no piece holds the separator, and joining the pieces gives the string back. |
| `JsText.SplitJoin` | src/utils/markdownUtils.ts:49 | Splitting a join undoes it when no piece holds the separator. |
| `JsText.ToLower` | src/utils/markdownUtils.ts:155 | `toLowerCase` keeps the length and lowers each ASCII capital letter. |
| `LinePatterns.DotRun` | src/utils/markdownUtils.ts:165 | The longest prefix that regex `.` matches character by character. |
| `LinePatterns.LastSplit` | src/utils/markdownUtils.ts:165 | Greedy `(.+)SEP(.+)` splits at a split point with no later split point. |
| `LinePatterns.MatchPair` | src/utils/markdownUtils.ts:165 | A match of `(.+)SEP(.+)` gives two non-empty groups that `.` matches throughout. |
| `LinePatterns.MatchPairRecovers` | src/utils/markdownUtils.ts:165-170 | `(.+)SEP(.+)` gives back both parts of `a SEP b` when the separator does not occur again after `a`. |
| `LinePatterns.MatchPairHasSep` | src/utils/markdownUtils.ts:273 | `(.+)SEP(.+)` matches only a line that contains the separator. |
| `LinePatterns.LastTriple` | src/utils/markdownUtils.ts:252 | Greedy `(.+)S1(.+)S2(.+)` places its first separator at the last occurrence that lets the rest match. |
| `LinePatterns.MatchTriple` | src/utils/markdownUtils.ts:252 | A match of `(.+) \| (.+) - (.+)` gives three non-empty groups. |
| `LinePatterns.MatchTripleRecovers` | src/utils/markdownUtils.ts:252-257 | The three-group pattern gives back the three parts of `a S1 b S2 c` when neither separator occurs again later. |
| `LinePatterns.MatchTripleHasFirst` | src/utils/markdownUtils.ts:252 | The three-group pattern matches only a line that contains its first separator. |
| `LinePatterns.MatchBullet` | src/utils/markdownUtils.ts:226 | A match of `- (.+): (.+)` gives a non-empty label and a non-empty value. |
| `LinePatterns.MatchBulletRecovers` | src/utils/markdownUtils.ts:226-231 | `- (.+): (.+)` gives back the label and the value of `- label: value` when the value holds no further `": "`. |
| `LinePatterns.MatchUrl` | src/utils/markdownUtils.ts:285 | A match of `URL: (.+)` gives a non-empty rest of the line. |
| `LinePatterns.MatchUrlHasMarker` | src/utils/markdownUtils.ts:285-291 | `URL: (.+)` matches only a line that contains `URL: `. |
| `LinePatterns.MatchUrlRecovers` | src/utils/markdownUtils.ts:285-287 | `URL: (.+)` gives back the link of `URL: link`. |
| `LinePatterns.MatchHeading` | src/utils/markdownUtils.ts:131 | `^P(.+)` matches exactly when the line starts with `P` and a character `.` matches follows; the group is then non-empty, made of such characters, and a prefix of the rest of the line. |
| `LinePatterns.MatchHeadingRecovers` | src/utils/markdownUtils.ts:145-147 | `^P(.+)` gives back the text of `P` followed by a one-line text. |
| `MarkdownWriter.ResumeToMarkdown` | src/utils/markdownUtils.ts:4-109 | The string built by appending is the text of the resume's lines: header, contact block, then each non-empty section in order. |
| `MarkdownWriter.WriteHead` | src/utils/markdownUtils.ts:5-21 | The name heading, the title heading and a blank line, the contact block, and the summary when it is non-empty. |
| `MarkdownWriter.WriteContact` | src/utils/markdownUtils.ts:9-15 | The contact block: its heading, one line for each non-empty field, then a blank line. |
| `MarkdownWriter.AppendOptionalLine` | src/utils/markdownUtils.ts:10-14 | A labelled line is appended only when its value is non-empty. |
| `MarkdownWriter.AppendLabelled` | src/utils/markdownUtils.ts:30-31 | A `**Projects:**` or `**Scope:**` paragraph is appended only when its value is non-empty. |
| `MarkdownWriter.AppendOptionalParagraph` | src/utils/markdownUtils.ts:41 | An education description paragraph is appended only when it is non-empty. |
| `MarkdownWriter.WriteExperience` | src/utils/markdownUtils.ts:24-33 | The loop appends the experience section: nothing for an empty list, otherwise the heading and every entry in order. |
| `MarkdownWriter.AppendExperience` | src/utils/markdownUtils.ts:27-31 | One experience entry: title line, location and date line, description paragraph, then projects and scope when set. |
| `MarkdownWriter.WriteEducation` | src/utils/markdownUtils.ts:36-43 | The education section, written only for a non-empty list. |
| `MarkdownWriter.AppendEducation` | src/utils/markdownUtils.ts:39-41 | One education entry: title line, date line, then the description when set. |
| `MarkdownWriter.WriteSkills` | src/utils/markdownUtils.ts:46-50 | The skills section: the skill names joined by `, ` on one line. |
| `MarkdownWriter.WriteProjects` | src/utils/markdownUtils.ts:53-61 | The projects section, written only for a non-empty list. |
| `MarkdownWriter.AppendProject` | src/utils/markdownUtils.ts:56-59 | One project: title line, description line, `URL:` line when set, then a blank line. |
| `MarkdownWriter.WriteLanguages` | src/utils/markdownUtils.ts:64-70 | The languages section: one `- name: proficiency` line each. |
| `MarkdownWriter.WriteCertifications` | src/utils/markdownUtils.ts:73-80 | The certifications section, with the expiry and the indented URL line only when set. |
| `MarkdownWriter.WriteAchievements` | src/utils/markdownUtils.ts:83-89 | The achievements section: two lines per achievement. |
| `MarkdownWriter.WriteActivities` | src/utils/markdownUtils.ts:92-98 | The activities section: two lines per activity. |
| `MarkdownWriter.WriteBadges` | src/utils/markdownUtils.ts:101-106 | The badges section, with no blank line after it. |
| `MarkdownWriter.UnlinesConcat` | src/utils/markdownUtils.ts:4-109 | The text of two lists of lines is the concatenation of their texts. |
| `MarkdownWriter.UnlinesAsJoin` | src/utils/markdownUtils.ts:126 | The written text is its lines joined by line breaks, plus a final empty piece. |
| `ParserProperties.SectionsWritten` | src/utils/markdownUtils.ts:9-61 | The contact block is always written. Summary, experience, education, skills and projects each produce lines exactly when non-empty, and those lines start with the section's heading. |
| `ParserProperties.LaterSectionsWritten` | src/utils/markdownUtils.ts:64-106 | Languages, certifications, achievements, activities and badges each produce lines exactly when non-empty, and those lines start with the section's heading. |
| `ParserProperties.CurrentWrittenAsPresent` | src/utils/markdownUtils.ts:28 | A current experience is dated `location \| start - Present`, whatever its end date. |
| `MarkdownReader.ParseMarkdown` | src/utils/markdownUtils.ts:111-315 | The loop over the lines, updating the section, the open entry and the result in place, then the clean-up, returns `Parse` of the text. |
| `MarkdownReader.ReadHead` | src/utils/markdownUtils.ts:131-148 | The personal record read from the first two lines. |
| `MarkdownReader.ReadLine` | src/utils/markdownUtils.ts:151-294 | One pass of the loop body equals `Step` on the loop's state. |
| `MarkdownReader.OpenEntry` | src/utils/markdownUtils.ts:161-206 | A `### ` line equals `Subheading`: it opens a new experience, education or project entry when the title matches its section's pattern. |
| `MarkdownReader.ReadContent` | src/utils/markdownUtils.ts:209-246 | The summary, skills, languages and contact cases equal `SectionContent`. |
| `MarkdownReader.ReadDetail` | src/utils/markdownUtils.ts:249-294 | A detail line updates the open entry, the last of its list, in place, as `ItemDetail` says. |
| `MarkdownReader.ReadExperienceDetail` | src/utils/markdownUtils.ts:250-270 | Date line, description, projects and scope cases for the open experience. |
| `MarkdownReader.ReadEducationDetail` | src/utils/markdownUtils.ts:271-282 | Date line and description cases for the open education entry. |
| `MarkdownReader.ReadProjectDetail` | src/utils/markdownUtils.ts:283-293 | URL and description cases for the open project. |
| `MarkdownReader.CleanUp` | src/utils/markdownUtils.ts:297-312 | The clean-up equals `Finish`. |
| `MarkdownReader.CleanExperience` | src/utils/markdownUtils.ts:302-304 | Every experience description is trimmed and nothing else changes. |
| `MarkdownReader.CleanEducation` | src/utils/markdownUtils.ts:306-308 | Every education description is trimmed and nothing else changes. |
| `MarkdownReader.CleanProjects` | src/utils/markdownUtils.ts:310-312 | Every project description is trimmed and nothing else changes. |
| `MarkdownReader.Finish` | src/utils/markdownUtils.ts:297-312 | The summary read becomes its trimmed text and an absent one stays absent; each description is trimmed. The lists keep their lengths, and every other field is kept. |
| `MarkdownReader.EmptyResume` | src/utils/markdownUtils.ts:112-123 | The result starts with the personal record read from the headings and no summary. |
| `MarkdownReader.TitleFromHeading` | src/utils/markdownUtils.ts:145-148 | A `## ` second line sets the title to the trimmed heading text; any other second line leaves the record unchanged. |
| `MarkdownReader.NameFromHeading` | src/utils/markdownUtils.ts:131-142 | The name heading sets only the name fields; a first line that is no `# ` heading changes nothing. |
| `MarkdownReader.ContactField` | src/utils/markdownUtils.ts:234-245 | A contact line that is no `- label: value` bullet changes nothing. |
| `MarkdownReader.AddSummaryLine` | src/utils/markdownUtils.ts:209-212 | After a summary line the summary is present. |
| `MarkdownReader.AddSkills` | src/utils/markdownUtils.ts:215-223 | The pieces of a skills line are appended after the old skills, unchanged, and only non-empty names with fresh ids are added. |
| `MarkdownReader.AddLanguage` | src/utils/markdownUtils.ts:225-233 | A `- name: level` line appends one language with the trimmed name and level; any other line adds nothing. |
| `MarkdownReader.SectionContent` | src/utils/markdownUtils.ts:209-246 | The section cases never touch experience, education, projects or the four lists the reader ignores. |
| `MarkdownReader.Subheading` | src/utils/markdownUtils.ts:161-206 | A `### ` line keeps the section, personal data, summary, skills and languages. The state stays valid: an open entry is always the last of its section's list. |
| `MarkdownReader.EndDateOf` | src/utils/markdownUtils.ts:256-257 | The end token `Present` means current with an empty end date; any other token is the end date and not current. |
| `MarkdownReader.ExperienceDetail` | src/utils/markdownUtils.ts:250-270 | A detail line never changes the entry's id, title or company. |
| `MarkdownReader.EducationDetail` | src/utils/markdownUtils.ts:271-282 | A detail line never changes the entry's id, degree, field or institution. |
| `MarkdownReader.ProjectDetail` | src/utils/markdownUtils.ts:283-293 | A detail line never changes the project's id or title. |
| `MarkdownReader.ItemDetail` | src/utils/markdownUtils.ts:249-294 | A detail line changes only the open entry. Every list keeps its length, and the personal data, summary, skills and languages are kept. |
| `MarkdownReader.RunSnoc` | src/utils/markdownUtils.ts:150-295 | Reading one more line is one more `Step`. |
| `ParserProperties.NameHeading` | src/utils/markdownUtils.ts:131-142 | `# w1 … wn`: with three or more words, the middle name is the inner words and the name is the last word. With two words, the name is the first word. With fewer, nothing is set. |
| `ParserProperties.NameLineRead` | src/utils/markdownUtils.ts:131-142 | The written name line `# name middleName` is read back lossily: without a middle name nothing is read, and with one only the name is read. Also draws on line 5. |
| `ParserProperties.ContactFieldChangesOne` | src/utils/markdownUtils.ts:234-245 | A contact line changes at most one of email, phone, location, LinkedIn and GitHub, and never the name or title. |
| `ParserProperties.ContactEmailFirst` | src/utils/markdownUtils.ts:237-240 | A label whose lower case contains `email` sets the email to the trimmed value. |
| `ParserProperties.ContactPhoneSecond` | src/utils/markdownUtils.ts:237-241 | A label that contains `phone` but not `email` sets the phone. |
| `ParserProperties.ContactLocationThird` | src/utils/markdownUtils.ts:237-242 | A label that contains `location` but neither `email` nor `phone` sets the location. |
| `ParserProperties.ContactLinkedinFourth` | src/utils/markdownUtils.ts:237-243 | A label that contains `linkedin` and none of `email`, `phone`, `location` sets the LinkedIn field. |
| `ParserProperties.ContactGithubFifth` | src/utils/markdownUtils.ts:237-244 | A label that contains `github` and none of the four earlier names sets the GitHub field. |
| `ParserProperties.ContactOtherIgnored` | src/utils/markdownUtils.ts:237-245 | A label that contains none of the five field names changes nothing. |
| `ParserProperties.ContactBullet` | src/utils/markdownUtils.ts:235-238 | `- label: value` is matched as that label and that value when the value holds no further `": "`. |
| `ParserProperties.WorkEmail` | src/utils/markdownUtils.ts:235-240 | `- Work Email: jo@x.io` sets the email, by substring dispatch. |
| `ParserProperties.WebsiteIgnored` | src/utils/markdownUtils.ts:235-245 | `- Website: example.org` changes nothing. |
| `ParserProperties.ExperienceDescriptionLine` | src/utils/markdownUtils.ts:260-262 | A non-date line is added to the description, with a line break, exactly when it is non-empty, does not start with `#`, `*`, `-` or a digit, and contains neither `Projects:` nor `Scope:`. |
| `ParserProperties.ExperienceLabelOverwrites` | src/utils/markdownUtils.ts:264-270 | A `Projects:` or `Scope:` line overwrites the field whatever it held, so reading it twice equals reading it once. |
| `ParserProperties.ExperienceDateLine` | src/utils/markdownUtils.ts:252-257 | The date line sets the location and start date to the trimmed groups. The end token `Present` makes the entry current with an empty end date; any other token is copied and the entry is not current. |
| `ParserProperties.SectionHeadingResets` | src/utils/markdownUtils.ts:154-158 | A `## ` line sets the section to the lower-cased rest of the line, closes the open entry and changes no data. |
| `ParserProperties.ExperienceHeadingWithoutAt` | src/utils/markdownUtils.ts:164-180 | An experience `### ` heading without ` at ` changes nothing, not even the open entry. |
| `ParserProperties.ExperienceHeadingOpens` | src/utils/markdownUtils.ts:164-180 | An experience heading that matches opens a new entry with the trimmed title and company, appended to the list. |
| `ParserProperties.EducationHeadingWithoutMatch` | src/utils/markdownUtils.ts:181-195 | An education `### ` heading that `(.+) in (.+), (.+)` does not match changes nothing, not even the open entry. |
| `ParserProperties.EducationHeadingWithoutIn` | src/utils/markdownUtils.ts:181-195 | In particular an education heading without ` in ` changes nothing. |
| `ParserProperties.EducationHeadingOpens` | src/utils/markdownUtils.ts:181-195 | An education heading that matches opens a new entry with the trimmed degree, field and institution, appended to the list. |
| `ParserProperties.ProjectHeadingOpens` | src/utils/markdownUtils.ts:196-204 | In the projects section every `### ` heading opens a new project titled with the trimmed rest of the line. |
| `ParserProperties.StepKeepsUnread` | src/utils/markdownUtils.ts:150-295 | No line changes certifications, achievements, activities or badges. |
| `ParserProperties.RunKeepsUnread` | src/utils/markdownUtils.ts:150-295 | No sequence of lines changes them either. |
| `ParserProperties.ParseLeavesUnreadEmpty` | src/utils/markdownUtils.ts:112-123 | The parse result always has empty certifications, achievements, activities and badges. |
| `ParserProperties.ParseTrimsText` | src/utils/markdownUtils.ts:297-312 | In the parse result the summary and every description are trimmed. |
| `ReadSteps.SplitUnlines` | src/utils/markdownUtils.ts:126 | Splitting the written text at line breaks gives back its lines and a final empty piece. |
| `ReadSteps.RunConcat` | src/utils/markdownUtils.ts:150-295 | Reading two blocks of lines is reading the first, then the second from where it left off. |
| `ReadSteps.HeadingStep` | src/utils/markdownUtils.ts:154-158 | A trimmed `## Name` line sets the section to the lower-cased name and closes the open entry. |
| `ReadSteps.BlankStep` | src/utils/markdownUtils.ts:151-294 | An empty line changes nothing. |
| `ReadSteps.InertRun` | src/utils/markdownUtils.ts:150-295 | Outside the content sections, with no entry open, lines that do not start with `#` change nothing. |
| `ReadSteps.ExperienceStep` | src/utils/markdownUtils.ts:249-270 | Inside an open experience, a content line changes only that entry, as `ExperienceDetail` says. |
| `ReadSteps.EducationStep` | src/utils/markdownUtils.ts:271-282 | Inside an open education entry, a content line changes only that entry. |
| `ReadSteps.ProjectStep` | src/utils/markdownUtils.ts:283-293 | Inside an open project, a content line changes only that project. |
| `SectionRoundTrip.ReadContact` | src/utils/markdownUtils.ts:234-245 | The contact block read back sets exactly the non-empty contact fields to the values written. Also draws on lines 9-15. |
| `SectionRoundTrip.EmailLine` | src/utils/markdownUtils.ts:234-240 | `- Email: v` sets the email to `v`. Also draws on line 10. |
| `SectionRoundTrip.PhoneLine` | src/utils/markdownUtils.ts:234-241 | `- Phone: v` sets the phone to `v`. Also draws on line 11. |
| `SectionRoundTrip.LocationLine` | src/utils/markdownUtils.ts:234-242 | `- Location: v` sets the location to `v`. Also draws on line 12. |
| `SectionRoundTrip.LinkedinLine` | src/utils/markdownUtils.ts:234-243 | `- LinkedIn: v` sets the LinkedIn field to `v`. Also draws on line 13. |
| `SectionRoundTrip.GithubLine` | src/utils/markdownUtils.ts:234-244 | `- GitHub: v` sets the GitHub field to `v`. Also draws on line 14. |
| `SectionRoundTrip.ReadSummary` | src/utils/markdownUtils.ts:209-212 | A non-empty summary is read back as its line plus a line break; an empty summary stays absent. Also draws on lines 18-21. |
| `EntryRoundTrip.TrimPending` | src/utils/markdownUtils.ts:297-312 | A description read as its line plus a line break trims back to the line. Also draws on line 261. |
| `EntryRoundTrip.EndTokenRead` | src/utils/markdownUtils.ts:276-277 | The written end token reads back as current with no end date when the entry is current or its end date is `Present`, and as the end date otherwise. Also draws on lines 28, 40 and 256-257. |
| `EntryRoundTrip.ExperienceTitleMatch` | src/utils/markdownUtils.ts:165-170 | `title at company` is split back into title and company when the company holds no further usable ` at `. Also draws on line 27. |
| `EntryRoundTrip.ExperienceDatesDetail` | src/utils/markdownUtils.ts:252-257 | The written date line sets the location, the start date and the end date or current flag. Also draws on line 28. |
| `EntryRoundTrip.ExperienceProseDetail` | src/utils/markdownUtils.ts:260-262 | A description line is appended to the description with a line break. Also draws on line 29. |
| `EntryRoundTrip.ExperienceProjectsDetail` | src/utils/markdownUtils.ts:264-266 | `**Projects:** p` sets the projects to `p`. Also draws on line 30. |
| `EntryRoundTrip.ExperienceScopeDetail` | src/utils/markdownUtils.ts:267-270 | `**Scope:** s` sets the scope to `s`. Also draws on line 31. |
| `EntryRoundTrip.ReadExperienceEntry` | src/utils/markdownUtils.ts:250-270 | The lines of one experience entry, read in the experience section, append that entry with a fresh id, its end date read back, and its description pending a trim. Also draws on lines 27-31 and 164-180. |
| `EntryRoundTrip.EducationTitleMatch` | src/utils/markdownUtils.ts:182-193 | `degree in field, institution` is split back into its three parts. Also draws on line 39. |
| `EntryRoundTrip.EducationDatesDetail` | src/utils/markdownUtils.ts:273-277 | The written date line sets the start date and the end date or current flag. Also draws on line 40. |
| `EntryRoundTrip.ReadEducationEntry` | src/utils/markdownUtils.ts:271-282 | The lines of one education entry read back as that entry with a fresh id. Also draws on lines 39-41 and 181-195. |
| `EntryRoundTrip.ReadProjectEntry` | src/utils/markdownUtils.ts:283-293 | The lines of one project read back as that project with a fresh id. Also draws on lines 56-59 and 196-204. |
| `ListRoundTrip.ReadExperienceSection` | src/utils/markdownUtils.ts:250-270 | The experience section read back appends every entry, in order, after those read before. Also draws on lines 24-33 and 154-206. |
| `ListRoundTrip.ReadEducationSection` | src/utils/markdownUtils.ts:271-282 | The education section read back appends every entry, in order. Also draws on lines 36-43 and 181-195. |
| `ListRoundTrip.ReadProjectsSection` | src/utils/markdownUtils.ts:283-293 | The projects section read back appends every project, in order. Also draws on lines 53-61 and 196-204. |
| `ListRoundTrip.JoinSpaced` | src/utils/markdownUtils.ts:49 | Joining names with `, ` is joining them with `,` after giving every name but the first a leading space. Also draws on line 215. |
| `ListRoundTrip.SplitSkillsLine` | src/utils/markdownUtils.ts:215 | Splitting the written skills line at commas gives the names back, every name but the first with its space. Also draws on line 49. |
| `ListRoundTrip.AddSpacedSkills` | src/utils/markdownUtils.ts:215-223 | Adding those pieces after trimming gives one skill per name, in order. |
| `ListRoundTrip.ReadSkillsSection` | src/utils/markdownUtils.ts:213-224 | Comma-free, trimmed, one-line skill names, the first not starting with `#`, read back as exactly those names in order. Also draws on lines 46-50. |
| `ListRoundTrip.ReadLanguagesSection` | src/utils/markdownUtils.ts:225-233 | The languages section reads back every language, in order. Also draws on lines 64-70. |
| `ListRoundTrip.SkipCertifications` | src/utils/markdownUtils.ts:73-80 | The certifications section is read without any change to the data. |
| `ListRoundTrip.SkipAchievements` | src/utils/markdownUtils.ts:83-89 | The achievements section is read without any change to the data. |
| `ListRoundTrip.SkipActivities` | src/utils/markdownUtils.ts:92-98 | The activities section is read without any change to the data. |
| `ListRoundTrip.SkipBadges` | src/utils/markdownUtils.ts:101-106 | The badges section is read without any change to the data. |
| `DocumentRoundTrip.SplitDocument` | src/utils/markdownUtils.ts:126 | Splitting the written text at line breaks gives its lines and one empty piece. Also draws on lines 4-109. |
| `DocumentRoundTrip.ReadPersonal` | src/utils/markdownUtils.ts:234-245 | The name heading, the title heading and the contact lines give back the personal record. Also draws on lines 5-15 and 131-148. |
| `DocumentRoundTrip.FinishLoaded` | src/utils/markdownUtils.ts:297-312 | The clean-up turns what the loop read into the read-back resume. |
| `DocumentRoundTrip.ParseMarkdownRoundTrip` | src/utils/markdownUtils.ts:4-315 | Parsing the text written for a readable resume gives `ReadBack(r)`. |

## Left out

- The React provider, the context and the hook (src/contexts/ResumeContext.tsx:128-143, 226-245) are left out. The state cell is the field of `ResumeProvider`, and each setter call is one method.
- Ids from `Date.now()` and `Math.random()` are parameters: `id` for the store operations, `ids` for the reader. Nothing is claimed about their uniqueness.
- `formatDate` and `cn` in src/lib/utils.ts depend on the JavaScript `Date` library and on `clsx`/`tailwind-merge`, which are not part of this model.
- The templates, the forms and the other components are user interface only, and they are not part of this model.
- JsText.ToLower: lowers the ASCII capital letters only. Non-ASCII characters that JavaScript's `toLowerCase` maps to ASCII letters are not modelled. The Kelvin sign U+212A lowers to `k`, so the source opens the skills section on `## S\u212AILLS` and sets `linkedin` from `- Lin\u212Aedin: x`, and the model does neither. Characters whose lower case is longer, such as U+0130, are not modelled either, so the model's length-preserving contract does not hold for them.
- Optional fields (project and certification URL, certification expiry, and the others) are plain strings, with `""` meaning absent. The writer treats an absent value and `""` alike. A missing value that would be written as the text `undefined` is not modelled.
- The record is the wider one the writer uses. `ResumeData` at src/contexts/ResumeContext.tsx:39-45 declares only five fields; the store operations keep all the other fields, and their contracts say so.
- `DocumentRoundTrip.ParseMarkdownRoundTrip` holds for `Readable` resumes only: one-line, trimmed values that do not look like headings, list items, date lines or labels. Other text is read as the lemmas in `ParserProperties` describe, without a round-trip claim.
- The name does not round-trip. The writer writes `# name middleName`, and the reader takes the last of three or more words as the name. `ParserProperties.NameLineRead` states what comes back.
- `MarkdownReader.NameFromHeading` states only which fields the name heading can set. What it sets is stated by `ParserProperties.NameHeading`, which the functions' ensures do not repeat.
- `MarkdownReader.ContactField` states only the no-match case in its own contract. The dispatch for any label is stated position by position by `ParserProperties.ContactEmailFirst`, `ContactPhoneSecond`, `ContactLocationThird`, `ContactLinkedinFourth`, `ContactGithubFifth` and `ContactOtherIgnored`.
- `ResumeStore.MergeInfoFields` spells out the name, title and email fields only. The other five fields are defined by the same `Pick` rule, and the lemma does not state them separately.
