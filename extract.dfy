/**
 * The parsed resume file the extractors read. Each mapping is read with
 * defaults: an absent key reads as "" or [] and never fails. Values are
 * strings or lists of strings, as the resume file holds them. A key read as
 * the kind it does not hold (a list where a string is read, or the reverse)
 * reads as absent here, where Python's `get` would hand the value through.
 */
module Source {
  import opened Wrappers

  /** One mapping of the resume file: its string-valued keys and its list-valued keys. */
  datatype Entry = Entry(texts: map<string, string>, lists: map<string, seq<string>>)

  const EmptyEntry := Entry(map[], map[])

  /** `entry.get(key, "")` for a string-valued key. */
  function GetText(e: Entry, key: string): string {
    if key in e.texts then e.texts[key] else ""
  }

  /** `entry.get(key, [])` for a list-valued key. */
  function GetList(e: Entry, key: string): seq<string> {
    if key in e.lists then e.lists[key] else []
  }

  /** One key of the `skills` mapping with its list of skills, in the mapping's order. */
  datatype SkillGroup = SkillGroup(key: string, items: seq<string>)

  /** The top-level sections the extractors read; `None` when the key is absent. */
  datatype ResumeRecord = ResumeRecord(
    personalInformation: Option<Entry>,
    educationDetails: Option<seq<Entry>>,
    experienceDetails: Option<seq<Entry>>,
    projects: Option<seq<Entry>>,
    skills: Option<seq<SkillGroup>>)

  function PersonalInformation(r: ResumeRecord): Entry { r.personalInformation.GetOr(EmptyEntry) }
  function EducationDetails(r: ResumeRecord): seq<Entry> { r.educationDetails.GetOr([]) }
  function ExperienceDetails(r: ResumeRecord): seq<Entry> { r.experienceDetails.GetOr([]) }
  function ProjectList(r: ResumeRecord): seq<Entry> { r.projects.GetOr([]) }
  function SkillGroups(r: ResumeRecord): seq<SkillGroup> { r.skills.GetOr([]) }
}

/**
 * The section extractors (utils.py): each turns the resume record into the
 * dictionaries handed to the model, one per source entry, renaming keys and
 * filling defaults.
 */
module Extract {
  import opened Wrappers
  import opened Json
  import opened Responses
  import opened Text
  import opened Source

  // ---------------------------------------------------------------------
  // Heading
  // ---------------------------------------------------------------------

  /** extract_heading_section: a dictionary with exactly the five HeadingData keys. */
  function ExtractHeadingSection(r: ResumeRecord): (d: Json)
    ensures d.JObject? && d.fields.Keys == HeadingFields
    ensures ValidateHeading(d).Some?
  {
    var p := PersonalInformation(r);
    JObject(map[
      "name" := JStr(GetText(p, "name") + " " + GetText(p, "surname")),
      "phone" := JStr(GetText(p, "phone_prefix") + GetText(p, "phone")),
      "email" := JStr(GetText(p, "email")),
      "linkedin" := JStr(LastSegment(GetText(p, "linkedin"))),
      "github" := JStr(LastSegment(GetText(p, "github")))])
  }

  /** The heading the program validates from the extracted dictionary. */
  function HeadingOf(r: ResumeRecord): HeadingData {
    ValidateHeading(ExtractHeadingSection(r)).value
  }

  /**
   * The validated heading: the name is first name, a space and surname; the
   * phone is prefix then number; the handles are the last path segments.
   */
  lemma ExtractedHeading(r: ResumeRecord)
    ensures var p := PersonalInformation(r);
      HeadingOf(r) == HeadingData(
        GetText(p, "name") + " " + GetText(p, "surname"),
        GetText(p, "phone_prefix") + GetText(p, "phone"),
        GetText(p, "email"),
        LastSegment(GetText(p, "linkedin")),
        LastSegment(GetText(p, "github")))
  {
  }

  /** The social handles never contain a slash. */
  lemma HeadingHandlesHaveNoSlash(r: ResumeRecord)
    ensures '/' !in HeadingOf(r).linkedin && '/' !in HeadingOf(r).github
  {
    var p := PersonalInformation(r);
    LastSegmentIsLongestSlashFreeSuffix(GetText(p, "linkedin"));
    LastSegmentIsLongestSlashFreeSuffix(GetText(p, "github"));
  }

  /** Without personal information the name is a single space, not "". */
  lemma AbsentPersonalInformation(r: ResumeRecord)
    requires r.personalInformation.None?
    ensures HeadingOf(r) == HeadingData(" ", "", "", "", "")
  {
  }

  // ---------------------------------------------------------------------
  // Education
  // ---------------------------------------------------------------------

  function EducationDict(e: Entry): (d: Json)
    ensures d.JObject? && d.fields.Keys == EducationItemFields
  {
    JObject(map[
      "university" := JStr(GetText(e, "university")),
      "duration" := JStr(GetText(e, "graduation_year")),
      "degree" := JStr(GetText(e, "degree") + "s in " + GetText(e, "field_of_study")),
      "location" := JStr(""),
      "gpa" := JStr(GetText(e, "gpa")),
      "relevant_coursework" := JStrings(GetList(e, "courses"))])
  }

  /**
   * An extracted education dictionary is a valid EducationItem: the duration is
   * the graduation year, the degree is "<degree>s in <field>", the location is
   * always "", an absent GPA is "" and absent courses are [].
   */
  lemma EducationDictValidates(e: Entry)
    ensures ValidateEducationItem(EducationDict(e)) == Some(EducationItem(
      GetText(e, "university"),
      GetText(e, "graduation_year"),
      GetText(e, "degree") + "s in " + GetText(e, "field_of_study"),
      "",
      GetText(e, "gpa"),
      GetList(e, "courses")))
  {
    StringsRoundTrip(GetList(e, "courses"));
  }

  function EducationSection(r: ResumeRecord): seq<Json> {
    seq(|EducationDetails(r)|, i requires 0 <= i < |EducationDetails(r)| => EducationDict(EducationDetails(r)[i]))
  }

  /** extract_education_section: one dictionary per entry, in order. */
  method ExtractEducationSection(r: ResumeRecord) returns (out: seq<Json>)
    ensures |out| == |EducationDetails(r)|
    ensures forall i :: 0 <= i < |out| ==> out[i] == EducationDict(EducationDetails(r)[i])
  {
    var list := EducationDetails(r);
    out := [];
    for i := 0 to |list|
      invariant |out| == i
      invariant forall k :: 0 <= k < i ==> out[k] == EducationDict(list[k])
    {
      out := out + [EducationDict(list[i])];
    }
  }

  // ---------------------------------------------------------------------
  // Experience
  // ---------------------------------------------------------------------

  function ExperienceDict(e: Entry): (d: Json)
    ensures d.JObject? && d.fields.Keys == ExperienceItemFields
  {
    JObject(map[
      "company" := JStr(GetText(e, "company")),
      "duration" := JStr(GetText(e, "employment_period")),
      "role" := JStr(GetText(e, "position")),
      "location" := JStr(GetText(e, "location")),
      "tools" := JStrings(GetList(e, "skills_acquired")),
      "responsibilities" := JStrings(GetList(e, "key_responsibilities"))])
  }

  /**
   * An extracted experience dictionary is a valid ExperienceItem with the keys
   * renamed: employment_period to duration, position to role, skills_acquired
   * to tools, key_responsibilities to responsibilities.
   */
  lemma ExperienceDictValidates(e: Entry)
    ensures ValidateExperienceItem(ExperienceDict(e)) == Some(ExperienceItem(
      GetText(e, "company"),
      GetText(e, "employment_period"),
      GetText(e, "position"),
      GetText(e, "location"),
      GetList(e, "skills_acquired"),
      GetList(e, "key_responsibilities")))
  {
    StringsRoundTrip(GetList(e, "skills_acquired"));
    StringsRoundTrip(GetList(e, "key_responsibilities"));
  }

  function ExperienceSection(r: ResumeRecord): seq<Json> {
    seq(|ExperienceDetails(r)|, i requires 0 <= i < |ExperienceDetails(r)| => ExperienceDict(ExperienceDetails(r)[i]))
  }

  /** extract_experience_section: one dictionary per entry, in order. */
  method ExtractExperienceSection(r: ResumeRecord) returns (out: seq<Json>)
    ensures |out| == |ExperienceDetails(r)|
    ensures forall i :: 0 <= i < |out| ==> out[i] == ExperienceDict(ExperienceDetails(r)[i])
  {
    var list := ExperienceDetails(r);
    out := [];
    for i := 0 to |list|
      invariant |out| == i
      invariant forall k :: 0 <= k < i ==> out[k] == ExperienceDict(list[k])
    {
      out := out + [ExperienceDict(list[i])];
    }
  }

  // ---------------------------------------------------------------------
  // Projects
  // ---------------------------------------------------------------------

  function ProjectDict(e: Entry): (d: Json)
    ensures d.JObject? && d.fields.Keys == ProjectItemFields
  {
    JObject(map[
      "title" := JStr(GetText(e, "name")),
      "skills" := JStrings([]),
      "descriptions" := JStrings([GetText(e, "description")])])
  }

  /**
   * An extracted project is a valid ProjectItem titled by its name, with no
   * skills and exactly one description ("" when absent).
   */
  lemma ProjectDictValidates(e: Entry)
    ensures ValidateProjectItem(ProjectDict(e)) == Some(ProjectItem(GetText(e, "name"), [], [GetText(e, "description")]))
  {
    StringsRoundTrip([]);
    StringsRoundTrip([GetText(e, "description")]);
  }

  function ProjectsSection(r: ResumeRecord): seq<Json> {
    seq(|ProjectList(r)|, i requires 0 <= i < |ProjectList(r)| => ProjectDict(ProjectList(r)[i]))
  }

  /** extract_projects_section: one dictionary per project, in order. */
  method ExtractProjectsSection(r: ResumeRecord) returns (out: seq<Json>)
    ensures |out| == |ProjectList(r)|
    ensures forall i :: 0 <= i < |out| ==> out[i] == ProjectDict(ProjectList(r)[i])
  {
    var list := ProjectList(r);
    out := [];
    for i := 0 to |list|
      invariant |out| == i
      invariant forall k :: 0 <= k < i ==> out[k] == ProjectDict(list[k])
    {
      out := out + [ProjectDict(list[i])];
    }
  }

  // ---------------------------------------------------------------------
  // Skills
  // ---------------------------------------------------------------------

  /** A skills key with underscores turned into spaces, then title-cased. */
  function Category(key: string): (c: string)
    ensures |c| == |key|
    ensures '_' !in c
  {
    var spaced := ReplaceChar(key, '_', ' ');
    var c := TitleCase(spaced);
    assert forall i :: 0 <= i < |c| ==> c[i] != '_' by {
      forall i | 0 <= i < |c| ensures c[i] != '_' {
        if !IsLetter(spaced[i]) {
          assert c[i] == spaced[i];
        } else if StartsWord(spaced, i) {
          assert IsUpper(c[i]);
        } else {
          assert IsLower(c[i]);
        }
      }
    }
    c
  }

  function SkillDict(g: SkillGroup): (d: Json)
    ensures d.JObject? && d.fields.Keys == SkillItemFields
  {
    JObject(map["category" := JStr(Category(g.key)), "items" := JStrings(g.items)])
  }

  /** An extracted skill group is a valid SkillItem carrying the key's category and the items unchanged. */
  lemma SkillDictValidates(g: SkillGroup)
    ensures ValidateSkillItem(SkillDict(g)) == Some(SkillItem(Category(g.key), g.items))
  {
    StringsRoundTrip(g.items);
  }

  function SkillsSection(r: ResumeRecord): seq<Json> {
    seq(|SkillGroups(r)|, i requires 0 <= i < |SkillGroups(r)| => SkillDict(SkillGroups(r)[i]))
  }

  /** extract_skills_section: one dictionary per key of the skills mapping, in its order. */
  method ExtractSkillsSection(r: ResumeRecord) returns (out: seq<Json>)
    ensures |out| == |SkillGroups(r)|
    ensures forall i :: 0 <= i < |out| ==> out[i] == SkillDict(SkillGroups(r)[i])
  {
    var groups := SkillGroups(r);
    out := [];
    for i := 0 to |groups|
      invariant |out| == i
      invariant forall k :: 0 <= k < i ==> out[k] == SkillDict(groups[k])
    {
      out := out + [SkillDict(groups[i])];
    }
  }
}
