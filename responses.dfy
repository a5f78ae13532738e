/**
 * The record shapes a model response must have (src/responses.py), with the
 * two conversions the program applies to them: `model_validate` (a loosely
 * typed value to a record, or nothing when a required field is missing or has
 * the wrong type) and `model_dump` (a record back to a loosely typed value).
 * No list field carries a length bound: the caps the prompts ask for are not
 * part of these types.
 */
module Responses {
  import opened Wrappers
  import opened Json

  datatype ExperienceItem = ExperienceItem(
    company: string,
    duration: string,
    role: string,
    location: string,
    tools: seq<string>,
    responsibilities: seq<string>)

  datatype ExperienceResponse = ExperienceResponse(experiences: seq<ExperienceItem>)

  datatype ProjectItem = ProjectItem(title: string, skills: seq<string>, descriptions: seq<string>)

  datatype ProjectsResponse = ProjectsResponse(projects: seq<ProjectItem>)

  datatype SkillItem = SkillItem(category: string, items: seq<string>)

  datatype SkillsResponse = SkillsResponse(skills: seq<SkillItem>)

  /** `gpa` is a required string: "no GPA" can only be written as "". */
  datatype EducationItem = EducationItem(
    university: string,
    duration: string,
    degree: string,
    location: string,
    gpa: string,
    relevant_coursework: seq<string>)

  datatype EducationResponse = EducationResponse(education: seq<EducationItem>)

  datatype HeadingData = HeadingData(name: string, phone: string, email: string, linkedin: string, github: string)

  // The field names of each record, as model_dump writes them.
  const ExperienceItemFields: set<string> := {"company", "duration", "role", "location", "tools", "responsibilities"}
  const ProjectItemFields: set<string> := {"title", "skills", "descriptions"}
  const SkillItemFields: set<string> := {"category", "items"}
  const EducationItemFields: set<string> := {"university", "duration", "degree", "location", "gpa", "relevant_coursework"}
  const HeadingFields: set<string> := {"name", "phone", "email", "linkedin", "github"}

  // ---------------------------------------------------------------------
  // Field validation (pydantic's lax mode for `str` and `List[str]`)
  // ---------------------------------------------------------------------

  /** A `str` field accepts a string and nothing else (not null). */
  function AsString(j: Json): (r: Option<string>)
    ensures r.Some? <==> j.JStr?
    ensures r.Some? ==> r.value == j.s
  {
    if j.JStr? then Some(j.s) else None
  }

  /** A list field: a list whose every element passes `item`; any length is accepted. */
  function AsList<T>(j: Json, item: Json -> Option<T>): (r: Option<seq<T>>)
    ensures r.Some? <==> j.JList? && forall i :: 0 <= i < |j.elems| ==> item(j.elems[i]).Some?
    ensures r.Some? ==> |r.value| == |j.elems| && forall i :: 0 <= i < |j.elems| ==> r.value[i] == item(j.elems[i]).value
  {
    if j.JList? then
      var checked := seq(|j.elems|, i requires 0 <= i < |j.elems| => item(j.elems[i]));
      assert forall i :: 0 <= i < |j.elems| ==> checked[i] == item(j.elems[i]);
      AllSome(checked)
    else None
  }

  function AsStrings(j: Json): Option<seq<string>> {
    AsList(j, AsString)
  }

  function StringField(f: map<string, Json>, k: string): Option<string> {
    if k in f then AsString(f[k]) else None
  }

  function StringsField(f: map<string, Json>, k: string): Option<seq<string>> {
    if k in f then AsStrings(f[k]) else None
  }

  lemma {:induction false} StringsRoundTrip(xs: seq<string>)
    ensures AsStrings(JStrings(xs)) == Some(xs)
  {
    var r := AsStrings(JStrings(xs));
    assert r.Some?;
    assert |r.value| == |xs|;
    forall i | 0 <= i < |xs| ensures r.value[i] == xs[i] { }
    assert r.value == xs;
  }

  // ---------------------------------------------------------------------
  // Items: model_dump and model_validate
  // ---------------------------------------------------------------------

  function DumpExperienceItem(x: ExperienceItem): (j: Json)
    ensures j.JObject? && j.fields.Keys == ExperienceItemFields
  {
    JObject(map[
      "company" := JStr(x.company),
      "duration" := JStr(x.duration),
      "role" := JStr(x.role),
      "location" := JStr(x.location),
      "tools" := JStrings(x.tools),
      "responsibilities" := JStrings(x.responsibilities)])
  }

  /** Every field is required; keys outside the record are ignored. */
  function ValidateExperienceItem(j: Json): (r: Option<ExperienceItem>)
    ensures r.Some? <==>
      && j.JObject? && ExperienceItemFields <= j.fields.Keys
      && j.fields["company"].JStr? && j.fields["duration"].JStr? && j.fields["role"].JStr? && j.fields["location"].JStr?
      && AsStrings(j.fields["tools"]).Some? && AsStrings(j.fields["responsibilities"]).Some?
    ensures r.Some? ==> r.value == ExperienceItem(
      j.fields["company"].s, j.fields["duration"].s, j.fields["role"].s, j.fields["location"].s,
      AsStrings(j.fields["tools"]).value, AsStrings(j.fields["responsibilities"]).value)
  {
    if !j.JObject? then None
    else
      var f := j.fields;
      var company, duration, role, location := StringField(f, "company"), StringField(f, "duration"), StringField(f, "role"), StringField(f, "location");
      var tools, responsibilities := StringsField(f, "tools"), StringsField(f, "responsibilities");
      if company.Some? && duration.Some? && role.Some? && location.Some? && tools.Some? && responsibilities.Some? then
        Some(ExperienceItem(company.value, duration.value, role.value, location.value, tools.value, responsibilities.value))
      else None
  }

  function DumpProjectItem(x: ProjectItem): (j: Json)
    ensures j.JObject? && j.fields.Keys == ProjectItemFields
  {
    JObject(map["title" := JStr(x.title), "skills" := JStrings(x.skills), "descriptions" := JStrings(x.descriptions)])
  }

  /** Every field is required; keys outside the record are ignored. */
  function ValidateProjectItem(j: Json): (r: Option<ProjectItem>)
    ensures r.Some? <==>
      && j.JObject? && ProjectItemFields <= j.fields.Keys && j.fields["title"].JStr?
      && AsStrings(j.fields["skills"]).Some? && AsStrings(j.fields["descriptions"]).Some?
    ensures r.Some? ==> r.value == ProjectItem(
      j.fields["title"].s, AsStrings(j.fields["skills"]).value, AsStrings(j.fields["descriptions"]).value)
  {
    if !j.JObject? then None
    else
      var f := j.fields;
      var title, skills, descriptions := StringField(f, "title"), StringsField(f, "skills"), StringsField(f, "descriptions");
      if title.Some? && skills.Some? && descriptions.Some? then Some(ProjectItem(title.value, skills.value, descriptions.value))
      else None
  }

  function DumpSkillItem(x: SkillItem): (j: Json)
    ensures j.JObject? && j.fields.Keys == SkillItemFields
  {
    JObject(map["category" := JStr(x.category), "items" := JStrings(x.items)])
  }

  /** Both fields are required; keys outside the record are ignored. */
  function ValidateSkillItem(j: Json): (r: Option<SkillItem>)
    ensures r.Some? <==>
      j.JObject? && SkillItemFields <= j.fields.Keys && j.fields["category"].JStr? && AsStrings(j.fields["items"]).Some?
    ensures r.Some? ==> r.value == SkillItem(j.fields["category"].s, AsStrings(j.fields["items"]).value)
  {
    if !j.JObject? then None
    else
      var category, items := StringField(j.fields, "category"), StringsField(j.fields, "items");
      if category.Some? && items.Some? then Some(SkillItem(category.value, items.value)) else None
  }

  function DumpEducationItem(x: EducationItem): (j: Json)
    ensures j.JObject? && j.fields.Keys == EducationItemFields
  {
    JObject(map[
      "university" := JStr(x.university),
      "duration" := JStr(x.duration),
      "degree" := JStr(x.degree),
      "location" := JStr(x.location),
      "gpa" := JStr(x.gpa),
      "relevant_coursework" := JStrings(x.relevant_coursework)])
  }

  /** `gpa` must be present and a string: a null or absent GPA is rejected. */
  function ValidateEducationItem(j: Json): (r: Option<EducationItem>)
    ensures r.Some? <==>
      && j.JObject? && EducationItemFields <= j.fields.Keys
      && j.fields["university"].JStr? && j.fields["duration"].JStr? && j.fields["degree"].JStr?
      && j.fields["location"].JStr? && j.fields["gpa"].JStr? && AsStrings(j.fields["relevant_coursework"]).Some?
    ensures r.Some? ==> r.value == EducationItem(
      j.fields["university"].s, j.fields["duration"].s, j.fields["degree"].s, j.fields["location"].s,
      j.fields["gpa"].s, AsStrings(j.fields["relevant_coursework"]).value)
  {
    if !j.JObject? then None
    else
      var f := j.fields;
      var university, duration, degree := StringField(f, "university"), StringField(f, "duration"), StringField(f, "degree");
      var location, gpa, coursework := StringField(f, "location"), StringField(f, "gpa"), StringsField(f, "relevant_coursework");
      if university.Some? && duration.Some? && degree.Some? && location.Some? && gpa.Some? && coursework.Some? then
        Some(EducationItem(university.value, duration.value, degree.value, location.value, gpa.value, coursework.value))
      else None
  }

  function DumpHeading(h: HeadingData): (j: Json)
    ensures j.JObject? && j.fields.Keys == HeadingFields
  {
    JObject(map["name" := JStr(h.name), "phone" := JStr(h.phone), "email" := JStr(h.email),
                "linkedin" := JStr(h.linkedin), "github" := JStr(h.github)])
  }

  /** HeadingData.model_validate: exactly five required string fields. */
  function ValidateHeading(j: Json): (r: Option<HeadingData>)
    ensures r.Some? <==> j.JObject? && HeadingFields <= j.fields.Keys && forall k :: k in HeadingFields ==> j.fields[k].JStr?
    ensures r.Some? ==> r.value == HeadingData(j.fields["name"].s, j.fields["phone"].s, j.fields["email"].s,
                                                j.fields["linkedin"].s, j.fields["github"].s)
  {
    if !j.JObject? then None
    else
      var f := j.fields;
      var name, phone, email := StringField(f, "name"), StringField(f, "phone"), StringField(f, "email");
      var linkedin, github := StringField(f, "linkedin"), StringField(f, "github");
      if name.Some? && phone.Some? && email.Some? && linkedin.Some? && github.Some? then
        Some(HeadingData(name.value, phone.value, email.value, linkedin.value, github.value))
      else None
  }

  // ---------------------------------------------------------------------
  // Responses: each wraps exactly one list field
  // ---------------------------------------------------------------------

  function DumpExperienceResponse(r: ExperienceResponse): (j: Json)
    ensures j.JObject? && j.fields.Keys == {"experiences"} && j.fields["experiences"].JList?
    ensures |j.fields["experiences"].elems| == |r.experiences|
  {
    JObject(map["experiences" := JList(seq(|r.experiences|, i requires 0 <= i < |r.experiences| => DumpExperienceItem(r.experiences[i])))])
  }

  /** Accepted exactly when `experiences` is a list whose every element is a valid ExperienceItem, of any length. */
  function ValidateExperienceResponse(j: Json): (r: Option<ExperienceResponse>)
    ensures r.Some? <==>
      && j.JObject? && "experiences" in j.fields && j.fields["experiences"].JList?
      && forall i :: 0 <= i < |j.fields["experiences"].elems| ==> ValidateExperienceItem(j.fields["experiences"].elems[i]).Some?
    ensures r.Some? ==>
      && |r.value.experiences| == |j.fields["experiences"].elems|
      && forall i :: 0 <= i < |r.value.experiences| ==> r.value.experiences[i] == ValidateExperienceItem(j.fields["experiences"].elems[i]).value
  {
    if j.JObject? && "experiences" in j.fields then
      var items := AsList(j.fields["experiences"], ValidateExperienceItem);
      if items.Some? then Some(ExperienceResponse(items.value)) else None
    else None
  }

  function DumpProjectsResponse(r: ProjectsResponse): (j: Json)
    ensures j.JObject? && j.fields.Keys == {"projects"} && j.fields["projects"].JList?
    ensures |j.fields["projects"].elems| == |r.projects|
  {
    JObject(map["projects" := JList(seq(|r.projects|, i requires 0 <= i < |r.projects| => DumpProjectItem(r.projects[i])))])
  }

  /** Accepted exactly when `projects` is a list whose every element is a valid ProjectItem, of any length. */
  function ValidateProjectsResponse(j: Json): (r: Option<ProjectsResponse>)
    ensures r.Some? <==>
      && j.JObject? && "projects" in j.fields && j.fields["projects"].JList?
      && forall i :: 0 <= i < |j.fields["projects"].elems| ==> ValidateProjectItem(j.fields["projects"].elems[i]).Some?
    ensures r.Some? ==>
      && |r.value.projects| == |j.fields["projects"].elems|
      && forall i :: 0 <= i < |r.value.projects| ==> r.value.projects[i] == ValidateProjectItem(j.fields["projects"].elems[i]).value
  {
    if j.JObject? && "projects" in j.fields then
      var items := AsList(j.fields["projects"], ValidateProjectItem);
      if items.Some? then Some(ProjectsResponse(items.value)) else None
    else None
  }

  function DumpSkillsResponse(r: SkillsResponse): (j: Json)
    ensures j.JObject? && j.fields.Keys == {"skills"} && j.fields["skills"].JList?
    ensures |j.fields["skills"].elems| == |r.skills|
  {
    JObject(map["skills" := JList(seq(|r.skills|, i requires 0 <= i < |r.skills| => DumpSkillItem(r.skills[i])))])
  }

  /** Accepted exactly when `skills` is a list whose every element is a valid SkillItem, of any length. */
  function ValidateSkillsResponse(j: Json): (r: Option<SkillsResponse>)
    ensures r.Some? <==>
      && j.JObject? && "skills" in j.fields && j.fields["skills"].JList?
      && forall i :: 0 <= i < |j.fields["skills"].elems| ==> ValidateSkillItem(j.fields["skills"].elems[i]).Some?
    ensures r.Some? ==>
      && |r.value.skills| == |j.fields["skills"].elems|
      && forall i :: 0 <= i < |r.value.skills| ==> r.value.skills[i] == ValidateSkillItem(j.fields["skills"].elems[i]).value
  {
    if j.JObject? && "skills" in j.fields then
      var items := AsList(j.fields["skills"], ValidateSkillItem);
      if items.Some? then Some(SkillsResponse(items.value)) else None
    else None
  }

  function DumpEducationResponse(r: EducationResponse): (j: Json)
    ensures j.JObject? && j.fields.Keys == {"education"} && j.fields["education"].JList?
    ensures |j.fields["education"].elems| == |r.education|
  {
    JObject(map["education" := JList(seq(|r.education|, i requires 0 <= i < |r.education| => DumpEducationItem(r.education[i])))])
  }

  /** Accepted exactly when `education` is a list whose every element is a valid EducationItem, of any length. */
  function ValidateEducationResponse(j: Json): (r: Option<EducationResponse>)
    ensures r.Some? <==>
      && j.JObject? && "education" in j.fields && j.fields["education"].JList?
      && forall i :: 0 <= i < |j.fields["education"].elems| ==> ValidateEducationItem(j.fields["education"].elems[i]).Some?
    ensures r.Some? ==>
      && |r.value.education| == |j.fields["education"].elems|
      && forall i :: 0 <= i < |r.value.education| ==> r.value.education[i] == ValidateEducationItem(j.fields["education"].elems[i]).value
  {
    if j.JObject? && "education" in j.fields then
      var items := AsList(j.fields["education"], ValidateEducationItem);
      if items.Some? then Some(EducationResponse(items.value)) else None
    else None
  }

  // ---------------------------------------------------------------------
  // Round trips: what model_dump writes, model_validate reads back unchanged
  // ---------------------------------------------------------------------

  lemma ExperienceItemRoundTrip(x: ExperienceItem)
    ensures ValidateExperienceItem(DumpExperienceItem(x)) == Some(x)
  {
    StringsRoundTrip(x.tools);
    StringsRoundTrip(x.responsibilities);
  }

  lemma ProjectItemRoundTrip(x: ProjectItem)
    ensures ValidateProjectItem(DumpProjectItem(x)) == Some(x)
  {
    StringsRoundTrip(x.skills);
    StringsRoundTrip(x.descriptions);
  }

  lemma SkillItemRoundTrip(x: SkillItem)
    ensures ValidateSkillItem(DumpSkillItem(x)) == Some(x)
  {
    StringsRoundTrip(x.items);
  }

  lemma EducationItemRoundTrip(x: EducationItem)
    ensures ValidateEducationItem(DumpEducationItem(x)) == Some(x)
  {
    StringsRoundTrip(x.relevant_coursework);
  }

  lemma HeadingRoundTrip(h: HeadingData)
    ensures ValidateHeading(DumpHeading(h)) == Some(h)
  {
  }

  lemma ExperienceResponseRoundTrip(r: ExperienceResponse)
    ensures ValidateExperienceResponse(DumpExperienceResponse(r)) == Some(r)
  {
    var xs := r.experiences;
    var items := AsList(DumpExperienceResponse(r).fields["experiences"], ValidateExperienceItem);
    forall i | 0 <= i < |xs| { ExperienceItemRoundTrip(xs[i]); }
    assert items.Some?;
    assert items.value == xs;
  }

  lemma ProjectsResponseRoundTrip(r: ProjectsResponse)
    ensures ValidateProjectsResponse(DumpProjectsResponse(r)) == Some(r)
  {
    var xs := r.projects;
    var items := AsList(DumpProjectsResponse(r).fields["projects"], ValidateProjectItem);
    forall i | 0 <= i < |xs| { ProjectItemRoundTrip(xs[i]); }
    assert items.Some?;
    assert items.value == xs;
  }

  lemma SkillsResponseRoundTrip(r: SkillsResponse)
    ensures ValidateSkillsResponse(DumpSkillsResponse(r)) == Some(r)
  {
    var xs := r.skills;
    var items := AsList(DumpSkillsResponse(r).fields["skills"], ValidateSkillItem);
    forall i | 0 <= i < |xs| { SkillItemRoundTrip(xs[i]); }
    assert items.Some?;
    assert items.value == xs;
  }

  lemma EducationResponseRoundTrip(r: EducationResponse)
    ensures ValidateEducationResponse(DumpEducationResponse(r)) == Some(r)
  {
    var xs := r.education;
    var items := AsList(DumpEducationResponse(r).fields["education"], ValidateEducationItem);
    forall i | 0 <= i < |xs| { EducationItemRoundTrip(xs[i]); }
    assert items.Some?;
    assert items.value == xs;
  }

  /**
   * Validation places no bound on list length: a response is accepted exactly
   * when each of its items is, whatever their number.
   */
  lemma ExperienceResponseAcceptsAnyLength(js: seq<Json>)
    ensures ValidateExperienceResponse(JObject(map["experiences" := JList(js)])).Some?
        <==> forall i :: 0 <= i < |js| ==> ValidateExperienceItem(js[i]).Some?
  {
  }

  lemma ProjectsResponseAcceptsAnyLength(js: seq<Json>)
    ensures ValidateProjectsResponse(JObject(map["projects" := JList(js)])).Some?
        <==> forall i :: 0 <= i < |js| ==> ValidateProjectItem(js[i]).Some?
  {
  }

  lemma SkillsResponseAcceptsAnyLength(js: seq<Json>)
    ensures ValidateSkillsResponse(JObject(map["skills" := JList(js)])).Some?
        <==> forall i :: 0 <= i < |js| ==> ValidateSkillItem(js[i]).Some?
  {
  }

  lemma EducationResponseAcceptsAnyLength(js: seq<Json>)
    ensures ValidateEducationResponse(JObject(map["education" := JList(js)])).Some?
        <==> forall i :: 0 <= i < |js| ==> ValidateEducationItem(js[i]).Some?
  {
  }
}
