# ResumeGenerator data path, modelled in Dafny

ResumeGenerator tailors a resume to a job description. It reads the user's
resume record and extracts five sections from it: heading, education,
experience, projects and skills. It asks a language model to rewrite four of
them for the job. The heading is not sent to the model. The four answers are
saved as one JSON bundle. Each section is rendered into a LaTeX fragment, a
root `resume.tex` is written that includes them, and the result is converted
to a PDF under a directory named after the application id.

This project models the deterministic part of that path:

- `Source` and `Extract` (`extract.dfy`): the parsed resume record as
  mappings that are read with defaults, and the five section extractors of
  `utils.py`. The four list extractors are loops proved against per-entry
  dictionary functions.
- `Json` and `Responses` (`json.dfy`, `responses.dfy`): the pydantic record
  classes of `src/responses.py` as datatypes. `model_dump` and
  `model_validate` are modelled as `Dump*` and `Validate*` over a small JSON
  value type, with round-trip lemmas.
- `Text` (`text.dfy`): `split("/")[-1]`, `replace("_", " ")` and ASCII
  `title()`, with `Split`/`Join` and their inverse lemmas.
- `Template` and `Render` (`template.dfy`, `render.dfy`): each Jinja template
  is a sequence of pieces, either template text (`Lit`) or a substituted
  value (`Val`). A fragment's text is `Flatten` of its pieces. For every
  section a parser reads the values back, and parsing a rendering returns the
  rendered record. The root document's include list is modelled too.
- `Generate` (`generate.dfy`): the path functions, the JSON bundle and
  `generate_resume` as a method over an `Environment` object. The object
  holds the directories, the files (a map from path to contents) and a ghost
  trace of the steps taken. The model is a set of oracles that return
  `Option` answers, and the LaTeX toolchain is a function from the files to
  an optional PDF.

The model follows the code where it departs from what a caller might expect:

- A failed model call raises no error of its own. `invoke_omni` returns
  `None`, and the run fails only when `model_dump` is called on it while the
  bundle is built (generate.py:82-87). That is after all four calls and after
  the source directory is made (generate.py:114), but before any file is
  written. `GenerateResume` returns `Raised(section)` for the first missing
  answer in bundle order.
- A failed conversion is only printed (utils.py:32-35). Nothing checks that a
  PDF was made, and the run returns `artifacts/<id>/resume.pdf` either way
  (generate.py:159).
- The four model calls are made one after another (generate.py:118-137), not
  concurrently, and the model makes them in the same order.
- The degree is built as `"<degree>s in <field>"` (utils.py:246), with an `s`
  glued to the degree name.

## Model

| member | source | states |
|---|---|---|
| Responses.DumpExperienceItem | src/responses.py:4-10 | The dumped dictionary has exactly the six ExperienceItem field names |
| Responses.ValidateExperienceItem | src/responses.py:4-10 | An object is accepted if and only if its four `str` fields are strings and its two `List[str]` fields are lists of strings; extra keys are ignored, and the item holds exactly those values |
| Responses.ExperienceItemRoundTrip | src/responses.py:4-10 | Validating a dumped ExperienceItem gives it back unchanged |
| Responses.DumpExperienceResponse | src/responses.py:12-13 | An ExperienceResponse dumps to an object whose only key is `experiences`, holding one entry per item |
| Responses.ValidateExperienceResponse | src/responses.py:12-13 | Accepted if and only if `experiences` is a list whose every element is a valid ExperienceItem; item i is the validation of element i |
| Responses.ExperienceResponseRoundTrip | src/responses.py:12-13 | Validating a dumped ExperienceResponse gives it back unchanged |
| Responses.ExperienceResponseAcceptsAnyLength | src/responses.py:12-13 | An `experiences` list validates if and only if each of its elements does, whatever its length; there is no cap in the type |
| Responses.DumpProjectItem | src/responses.py:15-18 | The dumped dictionary has exactly the ProjectItem field names |
| Responses.ValidateProjectItem | src/responses.py:15-18 | Accepted if and only if `title` is a string and `skills` and `descriptions` are lists of strings; the item holds exactly those values |
| Responses.ProjectItemRoundTrip | src/responses.py:15-18 | Validating a dumped ProjectItem gives it back unchanged |
| Responses.DumpProjectsResponse | src/responses.py:20-21 | A ProjectsResponse dumps to an object whose only key is `projects`, holding one entry per item |
| Responses.ValidateProjectsResponse | src/responses.py:20-21 | Accepted if and only if `projects` is a list whose every element is a valid ProjectItem; item i is the validation of element i |
| Responses.ProjectsResponseRoundTrip | src/responses.py:20-21 | Validating a dumped ProjectsResponse gives it back unchanged |
| Responses.ProjectsResponseAcceptsAnyLength | src/responses.py:20-21 | A `projects` list validates if and only if each of its elements does, whatever its length |
| Responses.DumpSkillItem | src/responses.py:23-25 | The dumped dictionary has exactly the keys `category` and `items` |
| Responses.ValidateSkillItem | src/responses.py:23-25 | Accepted if and only if `category` is a string and `items` a list of strings; the item holds exactly those values |
| Responses.SkillItemRoundTrip | src/responses.py:23-25 | Validating a dumped SkillItem gives it back unchanged |
| Responses.DumpSkillsResponse | src/responses.py:27-28 | A SkillsResponse dumps to an object whose only key is `skills`, holding one entry per item |
| Responses.ValidateSkillsResponse | src/responses.py:27-28 | Accepted if and only if `skills` is a list whose every element is a valid SkillItem; item i is the validation of element i |
| Responses.SkillsResponseRoundTrip | src/responses.py:27-28 | Validating a dumped SkillsResponse gives it back unchanged |
| Responses.SkillsResponseAcceptsAnyLength | src/responses.py:27-28 | A `skills` list validates if and only if each of its elements does, whatever its length |
| Responses.DumpEducationItem | src/responses.py:30-36 | The dumped dictionary has exactly the six EducationItem field names |
| Responses.ValidateEducationItem | src/responses.py:30-36 | Accepted if and only if the five `str` fields, `gpa` included, are strings and `relevant_coursework` is a list of strings, so an absent or null GPA is rejected; the item holds exactly those values |
| Responses.EducationItemRoundTrip | src/responses.py:30-36 | Validating a dumped EducationItem gives it back unchanged |
| Responses.DumpEducationResponse | src/responses.py:38-39 | An EducationResponse dumps to an object whose only key is `education`, holding one entry per item |
| Responses.ValidateEducationResponse | src/responses.py:38-39 | Accepted if and only if `education` is a list whose every element is a valid EducationItem; item i is the validation of element i |
| Responses.EducationResponseRoundTrip | src/responses.py:38-39 | Validating a dumped EducationResponse gives it back unchanged |
| Responses.EducationResponseAcceptsAnyLength | src/responses.py:38-39 | An `education` list validates if and only if each of its elements does, whatever its length |
| Responses.DumpHeading | src/responses.py:41-46 | The dumped heading has exactly the five HeadingData keys |
| Responses.ValidateHeading | src/responses.py:41-46 | A heading validates if and only if all five keys are present with string values, and the result carries those five strings |
| Responses.HeadingRoundTrip | src/responses.py:41-46 | Validating a dumped heading gives it back unchanged |
| Responses.StringsRoundTrip | src/responses.py:9-10 | A `List[str]` field reads back as the list it was dumped from |
| Text.Split | utils.py:233 | `str.split` returns at least one part, and no part contains the separator |
| Text.JoinSplit | utils.py:233 | Joining the parts of a split with the separator restores the string |
| Text.SplitJoin | utils.py:233 | Splitting a join of separator-free parts restores the parts |
| Text.LastSegment | utils.py:233-234 | `split("/")[-1]`; its contract is given by the three LastSegment lemmas below |
| Text.LastSegmentIsLongestSlashFreeSuffix | utils.py:233-234 | `split("/")[-1]` is a slash-free suffix: the whole string when it has no slash, otherwise exactly what follows the last slash |
| Text.LastSegmentAfterSlash | utils.py:233-234 | For a URL ending in `/name`, the handle is `name` |
| Text.LastSegmentOfTrailingSlash | utils.py:233-234 | A URL that ends in `/` gives the empty handle |
| Text.ReplaceChar | utils.py:286 | `replace("_", " ")` keeps the length and swaps exactly the occurrences of the character |
| Text.TitleCase | utils.py:286 | `title()` keeps the length and every non-letter, keeps every letter the same letter, upper-cases a letter that starts a word and lower-cases the others |
| Text.TitleCaseIdempotent | utils.py:286 | Title-casing twice gives the same text as title-casing once |
| Source.GetText | utils.py:228-248 | `entry.get(key, "")` for a string-valued key: the stored string, or `""` when absent; used by every extractor lemma below |
| Source.GetList | utils.py:249-264 | `entry.get(key, [])` for a list-valued key: the stored list, or `[]` when absent; used by every extractor lemma below |
| Extract.ExtractHeadingSection | utils.py:226-236 | The heading dictionary has exactly the five HeadingData keys, and it always validates |
| Extract.ExtractedHeading | utils.py:228-235 | The validated heading's name is first name, a space and surname; its phone is prefix then number; its email is copied; its handles are the last path segments |
| Extract.HeadingOf | generate.py:103 | `HeadingData.model_validate` of the extracted heading; its contract is ExtractedHeading, and ExtractHeadingSection shows it never fails |
| Extract.HeadingHandlesHaveNoSlash | utils.py:233-234 | The LinkedIn and GitHub handles never contain `/` |
| Extract.AbsentPersonalInformation | utils.py:228-235 | Without personal information the heading is a name of one space and four empty fields |
| Extract.EducationDict | utils.py:243-250 | Each education dictionary has exactly the EducationItem field names |
| Extract.EducationDictValidates | utils.py:243-250 | Each dictionary validates to the item with duration from `graduation_year`, degree `"<degree>s in <field>"` and location `""`; a missing GPA becomes `""` and missing courses become `[]` |
| Extract.ExtractEducationSection | utils.py:238-251 | One dictionary per education entry, in order; no entries (or no key) gives `[]` |
| Extract.ExperienceDict | utils.py:258-265 | Each experience dictionary has exactly the ExperienceItem field names |
| Extract.ExperienceDictValidates | utils.py:258-265 | Each dictionary validates to the item with `employment_period`, `position`, `skills_acquired` and `key_responsibilities` renamed to duration, role, tools and responsibilities, with defaults `""` or `[]` |
| Extract.ExtractExperienceSection | utils.py:253-266 | One dictionary per experience entry, in order |
| Extract.ProjectDict | utils.py:273-277 | Each project dictionary has exactly the ProjectItem field names |
| Extract.ProjectDictValidates | utils.py:273-277 | Each project validates to the item titled by its name, with no skills and exactly one description, `""` when absent |
| Extract.ExtractProjectsSection | utils.py:268-278 | One dictionary per project, in order |
| Extract.Category | utils.py:286 | A category has the key's length and contains no `_` |
| Extract.SkillDict | utils.py:285-288 | Each skill dictionary has exactly the keys `category` and `items` |
| Extract.SkillDictValidates | utils.py:285-288 | Each group validates to the item carrying the key's category and the skill list unchanged |
| Extract.ExtractSkillsSection | utils.py:280-289 | One dictionary per key of the skills mapping, in its iteration order; a missing mapping gives `[]` |
| Template.LoopLastIsJoin | utils.py:55 | The `loop.last` separator idiom renders the same text as `join(', ')` |
| Template.ParseLoopLast | utils.py:55 | A `loop.last`-separated list reads back as the same list |
| Template.ParseRepeat | utils.py:57-59 | A `for` loop of items reads back as the same list |
| Template.OccurrencesRepeat | utils.py:57-59 | A `for` loop of items opens exactly one item per element |
| Render.RenderEducation | utils.py:153-168 | The education template; its contract is EducationRoundTrip, the GPA and coursework iff lemmas and EducationSubheadingCount |
| Render.EducationGpaShownIffNonEmpty | utils.py:160 | `(GPA: ...)` appears in an education entry if and only if the GPA is non-empty |
| Render.EducationCourseworkShownIffNonEmpty | utils.py:161-165 | The Relevant Coursework block appears if and only if the course list is non-empty |
| Render.EducationSubheadingCount | utils.py:157-166 | The education entries contain exactly one `\resumeSubheading` per item |
| Render.EducationRoundTrip | utils.py:153-168 | Parsing the rendered education section gives back every item, with GPA and courses, in order |
| Render.RenderExperience | utils.py:49-63 | The experience template; its contract is ExperienceRoundTrip, ExperienceSubheadingCount and ExperienceEntryItems |
| Render.ExperienceEntryItems | utils.py:57-59 | An experience entry has one `\resumeItem` per responsibility |
| Render.ExperienceSubheadingCount | utils.py:52-61 | The experience entries contain exactly one `\resumeSubheading` per item |
| Render.ExperienceRoundTrip | utils.py:49-63 | Parsing the rendered experience section gives back every item, with its comma-separated tools and its responsibilities, in order |
| Render.RenderProjects | utils.py:85-98 | The projects template; its contract is ProjectsRoundTrip, ProjectHeadingCount and ProjectEntryCounts |
| Render.ProjectEntryCounts | utils.py:88-96 | A project entry has one `\resumeProjectHeading` and one `\resumeItem` per description |
| Render.ProjectHeadingCount | utils.py:88-96 | The project entries contain exactly one `\resumeProjectHeading` per project |
| Render.ProjectsRoundTrip | utils.py:85-98 | Parsing the rendered projects section gives back every project, with its skills and descriptions, in order |
| Render.RenderSkills | utils.py:119-130 | The skills template; its contract is SkillsRoundTrip, SkillsCategoryCount and EmptySkillsRenderHeaderOnly |
| Render.SkillsCategoryCount | utils.py:125-127 | The skills section has exactly one category line per SkillItem |
| Render.SkillsRoundTrip | utils.py:119-130 | Parsing the rendered skills section gives back every category with its joined items, in order |
| Render.EmptySkillsRenderHeaderOnly | utils.py:119-130 | An empty skills list still renders the section header and closing, with no category line |
| Render.RenderHeading | utils.py:190-202 | The heading template; its contract is HeadingFragmentRoundTrip and HeadingShowsContacts |
| Render.HeadingFragmentRoundTrip | utils.py:190-202 | The heading fragment reads back as the heading, and each link target matches its shown text |
| Render.HeadingShowsContacts | utils.py:193-197 | The heading text contains the name, the phone number and the e-mail address |
| Render.RootDocument | utils.py:350-372 | The root document; its contract is RootDocumentIncludes |
| Render.RootDocumentIncludes | utils.py:350-372 | The root document includes, in order, custom-commands, heading, education, skills, experience and projects, each prefixed by the path |
| Generate.RunPathShape | generate.py:109-110 | Every path of a run is `artifacts/<id>` followed by a fixed directory and file name |
| Generate.RunPathsDistinct | generate.py:139-157 | The nine files of a run (bundle, root, macros, five fragments, PDF) are pairwise distinct paths |
| Generate.RunPathsDisjoint | generate.py:109-110 | Runs for different application ids share no path string |
| Generate.ResumePdfPathInjective | generate.py:159 | The returned path is injective in the application id |
| Generate.ConvertedPdfIsReturnedPath | utils.py:29 | The converter moves the PDF to exactly the path the run returns |
| Generate.RootIncludesWrittenFragments | utils.py:351-369 | Each file the root document includes, once TeX adds `.tex`, is one the run writes, in write order |
| Generate.LoadAndExtractResumeData | generate.py:41-50 | Exactly the keys education, experience, projects, skills and heading, each holding its extractor's output |
| Generate.Bundle | generate.py:82-87 | The bundle has exactly the four keys education, experience, projects and skills; the heading is not among them |
| Generate.BundleRoundTrip | generate.py:82-87 | Reading the bundle back gives the four answers unchanged |
| Generate.Requests | generate.py:118-137 | Four model calls in the order education, experience, projects, skills, none for the heading; experience and projects carry a cap of 2 |
| Generate.Missing | generate.py:83-86 | No section is missing if and only if all four answers arrived; otherwise it names the first missing one in bundle order |
| Generate.Environment.MakeDirs | generate.py:114 | Adds the directory, leaves the files unchanged and records the step |
| Generate.Environment.WriteFile | generate.py:140-154 | Replaces the contents at one path, leaves every other file unchanged and records the write |
| Generate.ConvertTexToPdf | utils.py:15-35 | When the toolchain succeeds the PDF is written to `<outDir>/resume.pdf`; on failure nothing changes and nothing is raised |
| Generate.RequestSections | generate.py:116-137 | Each answer is its oracle's reply to the request built from the extracted section; the files stay as they were |
| Generate.WriteOutputs | generate.py:139-154 | Writes the bundle, the root document, the macros and the five fragments, in that order, and nothing else |
| Generate.WriteStepsFollowRunPaths | generate.py:139-154 | The eight writes follow the run's path list: the bundle first, then root, macros, heading, education, skills, experience, projects |
| Generate.FinishRun | generate.py:139-159 | After the writes and the conversion the run returns `artifacts/<id>/resume.pdf`, whether or not conversion succeeded |
| Generate.GenerateResume | generate.py:97-159 | A missing answer raises after the directory is made and all four calls, with no file written; otherwise the eight files and, if conversion worked, the PDF are written, and the fixed PDF path is returned |
| Generate.Written | generate.py:139-154 | The file map after the eight writes; its contract is WrittenKeys and WrittenContents |
| Generate.AfterConversion | utils.py:15-35 | The file map after conversion; its contract is FailedConversionKeepsOldPdf |
| Generate.WrittenKeys | generate.py:139-154 | A run adds exactly its own eight paths and changes no other file; in particular an existing `resume.pdf` of the same id is left as it was |
| Generate.WrittenContents | generate.py:139-154 | Each of the eight files holds what was written to it; no later write overwrites an earlier one |
| Generate.CompletedRunBundle | generate.py:139-142 | A completed run's JSON file reads back as the four model answers |
| Generate.CompletedRunHeading | generate.py:150 | A completed run's heading fragment shows the name, phone and e-mail extracted from the record, without any model call |
| Generate.RunsDoNotInterfere | generate.py:109-159 | A run for one application id leaves every file of another id unchanged, files being told apart by their path strings |
| Generate.FailedConversionKeepsOldPdf | utils.py:32-35 | When conversion fails the files are untouched, so the returned path keeps whatever was there before |

## Left out

- `convert_tex_to_pdf` (utils.py:15-35) is an opaque toolchain function of the files and the root document. The `latexmk -c` clean-up, the `rm` of auxiliary files and the working directory it runs in are not modelled. Error messages are printed and not modelled.
- `load_resume_data` (YAML reading and parsing) is not modelled, so the `None` it returns on a parse error is not either. The model starts from an already-parsed record.
- The record holds only string values and lists of strings. Numbers, nulls and other YAML value types are not represented.
- The contents of `custom-commands.tex` and the LaTeX preamble after its first line are fixed text. The macro file is the constant `FixedMacros`.
- Jinja's exact whitespace is not reproduced. The pieces keep the templates' token order, and the parsers work on pieces, not on bytes.
- `title()` is modelled for ASCII letters only. Non-ASCII letters and Unicode title case are not modelled.
- `join(', ')` in the skills and coursework templates is rendered in its `loop.last` form. `Template.LoopLastIsJoin` proves that the two give the same text.
- src/llm.py (the OpenAI client) and src/prompts.py (prompt wording and the system prompt) are not part of this model. They are replaced by one oracle per section. The oracle receives the section, the job description, the extracted data and the cap.
- app.py (the Streamlit page, uuid generation, PDF display) and tree.py (a directory listing) are not part of this model. Logging and `print` calls are not modelled either.
- Write errors that `save_outputs_to_json` and `write_resume_dot_tex` catch and print are not modelled. Every write succeeds.
- Generate.Environment.MakeDirs records only the leaf directory `<id>/latex_src/src`, not its parents.
- Generate.Bundle models the JSON content only. The encoding, the indentation and the key order of `json.dump` are not modelled.
- Pydantic's lax-mode conversions are not modelled, for example bytes accepted for a `str` field or a tuple accepted for a `List[str]` field. The `Validate*` functions accept only JSON strings and lists of strings.
- Source.GetText and Source.GetList read a resume entry whose keys hold either strings or lists of strings, each kind in its own map. A key holding the other kind of value reads as absent, whereas Python's `.get` passes any value through: a list-valued project `description` becomes `[[...]]` at utils.py:276 but `[""]` here.
- Paths are compared as strings; `//`, `.` and `..` normalisation is not modelled, so Generate.RunPathsDisjoint and Generate.RunsDoNotInterfere speak of files only for canonical ids such as the uuid4 strings the caller passes.
