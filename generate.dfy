/**
 * One resume run (generate.py). The record is extracted, the heading goes
 * straight to its fragment, and the other four sections go to the language
 * model one request each. The four answers are bundled into a JSON file, and
 * the seven typesetting files are written under a directory named after the
 * application id. The model is a set of oracles, one per section; an oracle
 * answers `None` where the client reports an error. The filesystem is an
 * `Environment` object, and the TeX toolchain is a function of the files.
 */
module Generate {
  import opened Wrappers
  import opened Json
  import opened Text
  import opened Responses
  import opened Source
  import opened Extract
  import opened Template
  import opened Render

  // ---------------------------------------------------------------------
  // Output locations (generate.py:39, 109-110, 139, 146-159; utils.py:29)
  // ---------------------------------------------------------------------

  const OutputBasePath := "artifacts"

  function JobDir(jobId: string): string { OutputBasePath + "/" + jobId }
  function OutputPath(jobId: string): string { JobDir(jobId) + "/latex_src" }
  function SrcPath(jobId: string): string { OutputPath(jobId) + "/src" }
  function JsonPath(jobId: string): string { JobDir(jobId) + "/model_outputs.json" }
  function RootTexPath(jobId: string): string { OutputPath(jobId) + "/resume.tex" }
  function CustomCommandsPath(jobId: string): string { OutputPath(jobId) + "/custom-commands.tex" }
  function FragmentPath(jobId: string, name: string): string { SrcPath(jobId) + "/" + name + ".tex" }

  /** The path the run returns; the source spells its prefix out rather than using the base constant. */
  function ResumePdfPath(jobId: string): string { "artifacts/" + jobId + "/resume.pdf" }

  /** Where the converter moves the PDF it made, given its output directory. */
  function ConvertedPdfPath(outDir: string): string { outDir + "/resume.pdf" }

  /** Every file a run can write, in the order it writes them; the PDF last. */
  function RunPaths(jobId: string): seq<string> {
    [JsonPath(jobId), RootTexPath(jobId), CustomCommandsPath(jobId),
     FragmentPath(jobId, "heading"), FragmentPath(jobId, "education"), FragmentPath(jobId, "skills"),
     FragmentPath(jobId, "experience"), FragmentPath(jobId, "projects"), ResumePdfPath(jobId)]
  }

  /** The directory below the job directory, and the file name, of each entry of `RunPaths`. */
  const RunDirs: seq<string> := ["", "/latex_src", "/latex_src", "/latex_src/src", "/latex_src/src",
    "/latex_src/src", "/latex_src/src", "/latex_src/src", ""]
  const RunNames: seq<string> := ["model_outputs.json", "resume.tex", "custom-commands.tex", "heading.tex",
    "education.tex", "skills.tex", "experience.tex", "projects.tex", "resume.pdf"]

  /** What follows the job directory in the `k`-th run path. */
  function RunTail(k: nat): string
    requires k < 9
  {
    RunDirs[k] + "/" + RunNames[k]
  }

  /** Each path is the job directory, a fixed directory and a fixed file name. */
  lemma RunPathShape(jobId: string)
    ensures |RunPaths(jobId)| == |RunDirs| == |RunNames| == 9
    ensures forall k :: 0 <= k < 9 ==> RunPaths(jobId)[k] == "artifacts/" + jobId + RunTail(k)
  {
    forall k | 0 <= k < 9
      ensures RunPaths(jobId)[k] == "artifacts/" + jobId + RunTail(k)
    {
      RunPathAt(jobId, k);
    }
  }

  lemma RunPathAt(jobId: string, k: nat)
    requires k < 9
    ensures RunPaths(jobId)[k] == "artifacts/" + jobId + RunTail(k)
  {
    if k == 0 || k == 8 {
      JobFilePath(jobId, k);
    } else if k < 3 {
      LatexFilePath(jobId, k);
    } else {
      FragmentFilePath(jobId, k);
    }
  }

  lemma JobFilePath(jobId: string, k: nat)
    requires k == 0 || k == 8
    ensures RunPaths(jobId)[k] == "artifacts/" + jobId + RunTail(k)
  {
    assert RunTail(k) == "/" + RunNames[k];
    if k == 0 {
      assert RunPaths(jobId)[k] == JobDir(jobId) + "/model_outputs.json";
      JobFileShape(jobId, "/model_outputs.json");
    } else {
      assert RunPaths(jobId)[k] == "artifacts/" + jobId + "/resume.pdf";
    }
  }

  lemma JobFileShape(jobId: string, tail: string)
    ensures JobDir(jobId) + tail == "artifacts/" + jobId + tail
  {
  }

  lemma LatexFilePath(jobId: string, k: nat)
    requires k == 1 || k == 2
    ensures RunPaths(jobId)[k] == "artifacts/" + jobId + RunTail(k)
  {
    var tail := "/" + RunNames[k];
    assert RunTail(k) == "/latex_src" + tail;
    assert RunPaths(jobId)[k] == OutputPath(jobId) + tail;
    OutputFileShape(jobId, tail);
  }

  lemma OutputFileShape(jobId: string, tail: string)
    ensures OutputPath(jobId) + tail == "artifacts/" + jobId + ("/latex_src" + tail)
  {
    assert JobDir(jobId) == "artifacts/" + jobId;
  }

  const FragmentNames: seq<string> := ["heading", "education", "skills", "experience", "projects"]

  lemma FragmentFilePath(jobId: string, k: nat)
    requires 3 <= k < 8
    ensures RunPaths(jobId)[k] == "artifacts/" + jobId + RunTail(k)
  {
    var name := FragmentNames[k - 3];
    assert RunPaths(jobId)[k] == FragmentPath(jobId, name);
    assert RunNames[k] == name + ".tex";
    FragmentPathShape(jobId, name);
  }

  lemma FragmentPathShape(jobId: string, name: string)
    ensures FragmentPath(jobId, name) == "artifacts/" + jobId + ("/latex_src/src" + "/" + (name + ".tex"))
  {
    assert JobDir(jobId) == "artifacts/" + jobId;
  }

  lemma RunNamesDistinct()
    ensures forall k :: 0 <= k < 9 ==> '/' !in RunNames[k]
    ensures forall i, j :: 0 <= i < 9 && 0 <= j < 9 && RunNames[i] == RunNames[j] ==> i == j
  {
    assert RunNames[1][7] != RunNames[8][7];
    assert RunNames[1][0] != RunNames[5][0];
    assert RunNames[5][0] != RunNames[8][0];
  }

  /** The file name of a run path (its last segment) tells which file of the run it is. */
  lemma RunPathName(jobId: string, k: nat)
    requires k < 9
    ensures LastSegment(RunPaths(jobId)[k]) == RunNames[k]
  {
    RunPathShape(jobId);
    RunNamesDistinct();
    var front := "artifacts/" + jobId + RunDirs[k];
    assert "artifacts/" + jobId + RunTail(k) == front + "/" + RunNames[k];
    LastSegmentAfterSlash(front, RunNames[k]);
  }

  /** A run never writes the same file twice: its paths are pairwise distinct. */
  lemma RunPathsDistinct(jobId: string)
    ensures forall i, j :: 0 <= i < 9 && 0 <= j < 9 && RunPaths(jobId)[i] == RunPaths(jobId)[j] ==> i == j
  {
    RunNamesDistinct();
    forall i, j | 0 <= i < 9 && 0 <= j < 9 && RunPaths(jobId)[i] == RunPaths(jobId)[j]
      ensures i == j
    {
      RunPathName(jobId, i);
      RunPathName(jobId, j);
    }
  }

  lemma CancelAround(p: string, a: string, b: string, t: string)
    requires p + a + t == p + b + t
    ensures a == b
  {
    var s := p + a + t;
    assert |a| == |b|;
    assert s[|p|..|p| + |a|] == a;
    assert (p + b + t)[|p|..|p| + |b|] == b;
  }

  lemma RunPathsDifferAt(a: string, b: string, i: nat, j: nat)
    requires a != b && i < 9 && j < 9
    ensures RunPaths(a)[i] != RunPaths(b)[j]
  {
    if RunPaths(a)[i] == RunPaths(b)[j] {
      RunPathName(a, i);
      RunPathName(b, j);
      RunNamesDistinct();
      assert i == j;
      RunPathShape(a);
      RunPathShape(b);
      CancelAround("artifacts/", a, b, RunTail(i));
    }
  }

  /**
   * Runs for two different application ids write disjoint sets of path
   * strings. Paths are compared as strings: ids that name the same directory
   * once `//`, `.` or `..` are resolved are not told apart.
   */
  lemma RunPathsDisjoint(a: string, b: string)
    requires a != b
    ensures forall i, j :: 0 <= i < 9 && 0 <= j < 9 ==> RunPaths(a)[i] != RunPaths(b)[j]
  {
    forall i, j | 0 <= i < 9 && 0 <= j < 9
      ensures RunPaths(a)[i] != RunPaths(b)[j]
    {
      RunPathsDifferAt(a, b, i, j);
    }
  }

  /** The returned path names one PDF per application id. */
  lemma ResumePdfPathInjective(a: string, b: string)
    ensures ResumePdfPath(a) == ResumePdfPath(b) ==> a == b
  {
    if ResumePdfPath(a) == ResumePdfPath(b) {
      CancelAround("artifacts/", a, b, "/resume.pdf");
    }
  }

  /** The converter's target for the job directory is the path the run returns. */
  lemma ConvertedPdfIsReturnedPath(jobId: string)
    ensures ConvertedPdfPath(JobDir(jobId)) == ResumePdfPath(jobId)
  {
    assert JobDir(jobId) == "artifacts/" + jobId;
  }

  /**
   * The root document, written into the output path, includes exactly the
   * files the run writes there, in the order it writes them: the macro file,
   * then the five sections in document order, once TeX has added the ".tex"
   * it assumes for a name without one.
   */
  lemma RootIncludesWrittenFragments(jobId: string)
    ensures var names := IncludedNames(RootDocument(OutputPath(jobId))[2..], IncludeCommands);
      |names| == 6 && forall k :: 0 <= k < 6 ==> TexFile(names[k]) == RunPaths(jobId)[k + 2]
  {
    var path := OutputPath(jobId);
    assert RootDocument(path)[2..] == IncludeLines(path, IncludeCommands) + [Lit(DocumentEnd)];
    IncludedNamesOfLines(path, IncludeCommands, [Lit(DocumentEnd)]);
    forall k | 0 <= k < 6
      ensures TexFile(path + IncludeCommands[k].1) == RunPaths(jobId)[k + 2]
    {
      IncludeResolves(jobId, k);
    }
  }

  lemma IncludeResolves(jobId: string, k: nat)
    requires k < 6
    ensures TexFile(OutputPath(jobId) + IncludeCommands[k].1) == RunPaths(jobId)[k + 2]
  {
    if k == 0 {
      MacroIncludeResolves(jobId);
    } else if k == 2 || k == 3 {
      FragmentIncludeKeeps(jobId, k);
    } else {
      FragmentIncludeAdds(jobId, k);
    }
  }

  /** The heading, experience and projects includes name no extension; TeX adds it. */
  lemma FragmentIncludeAdds(jobId: string, k: nat)
    requires k == 1 || k == 4 || k == 5
    ensures TexFile(OutputPath(jobId) + IncludeCommands[k].1) == RunPaths(jobId)[k + 2]
  {
    var name := FragmentNames[k - 1];
    assert RunPaths(jobId)[k + 2] == FragmentPath(jobId, name);
    assert IncludeCommands[k].1 == "/src/" + name;
    assert name[|name| - 4] != '.';
    FragmentNameResolves(jobId, name);
  }

  lemma FragmentNameResolves(jobId: string, name: string)
    requires |name| >= 4 && name[|name| - 4] != '.'
    ensures TexFile(OutputPath(jobId) + ("/src/" + name)) == FragmentPath(jobId, name)
  {
    FragmentUnderOutput(jobId, name);
    TexFileAdds(OutputPath(jobId), "/src/" + name);
  }

  /** The education and skills includes carry the extension already. */
  lemma FragmentIncludeKeeps(jobId: string, k: nat)
    requires k == 2 || k == 3
    ensures TexFile(OutputPath(jobId) + IncludeCommands[k].1) == RunPaths(jobId)[k + 2]
  {
    var name := FragmentNames[k - 1];
    assert RunPaths(jobId)[k + 2] == FragmentPath(jobId, name);
    assert IncludeCommands[k].1 == "/src/" + name + ".tex";
    FragmentUnderOutput(jobId, name);
    TexFileKeeps(OutputPath(jobId), "/src/" + name);
  }

  lemma MacroIncludeResolves(jobId: string)
    ensures TexFile(OutputPath(jobId) + "/custom-commands") == CustomCommandsPath(jobId)
  {
    TexFileAdds(OutputPath(jobId), "/custom-commands");
  }

  lemma FragmentUnderOutput(jobId: string, name: string)
    ensures FragmentPath(jobId, name) == OutputPath(jobId) + ("/src/" + name + ".tex")
  {
  }

  lemma TexFileAdds(path: string, name: string)
    requires |name| >= 4 && name[|name| - 4] != '.'
    ensures TexFile(path + name) == path + name + ".tex"
  {
    var s := path + name;
    assert s[|s| - 4] == name[|name| - 4];
    assert s[|s| - 4..] != ".tex";
  }

  lemma TexFileKeeps(path: string, name: string)
    ensures TexFile(path + (name + ".tex")) == path + (name + ".tex")
  {
    var s := path + (name + ".tex");
    assert s[|s| - 4..] == ".tex";
  }

  // ---------------------------------------------------------------------
  // Extraction (generate.py:41-50)
  // ---------------------------------------------------------------------

  const SectionKeys: set<string> := {"education", "experience", "projects", "skills", "heading"}

  /** The five extracted sections under their keys; the record is given already parsed. */
  method LoadAndExtractResumeData(record: ResumeRecord) returns (sections: map<string, Json>)
    ensures sections.Keys == SectionKeys
    ensures sections["education"] == JList(EducationSection(record))
    ensures sections["experience"] == JList(ExperienceSection(record))
    ensures sections["projects"] == JList(ProjectsSection(record))
    ensures sections["skills"] == JList(SkillsSection(record))
    ensures sections["heading"] == ExtractHeadingSection(record)
  {
    var education := ExtractEducationSection(record);
    var experience := ExtractExperienceSection(record);
    var projects := ExtractProjectsSection(record);
    var skills := ExtractSkillsSection(record);
    assert education == EducationSection(record);
    assert experience == ExperienceSection(record);
    assert projects == ProjectsSection(record);
    assert skills == SkillsSection(record);
    sections := map[
      "education" := JList(education),
      "experience" := JList(experience),
      "projects" := JList(projects),
      "skills" := JList(skills),
      "heading" := ExtractHeadingSection(record)];
  }

  // ---------------------------------------------------------------------
  // The JSON bundle (generate.py:64-95)
  // ---------------------------------------------------------------------

  const BundleKeys: set<string> := {"education", "experience", "projects", "skills"}

  /** The four model answers, dumped under their section names; the heading is not part of it. */
  function Bundle(education: EducationResponse, experience: ExperienceResponse, projects: ProjectsResponse, skills: SkillsResponse): (j: Json)
    ensures j.JObject? && j.fields.Keys == BundleKeys && "heading" !in j.fields
  {
    JObject(map[
      "education" := DumpEducationResponse(education),
      "experience" := DumpExperienceResponse(experience),
      "projects" := DumpProjectsResponse(projects),
      "skills" := DumpSkillsResponse(skills)])
  }

  /** Reads a bundle back, validating each section against its response type. */
  function ParseBundle(j: Json): Option<(EducationResponse, ExperienceResponse, ProjectsResponse, SkillsResponse)> {
    if j.JObject? && BundleKeys <= j.fields.Keys then
      match (ValidateEducationResponse(j.fields["education"]), ValidateExperienceResponse(j.fields["experience"]),
             ValidateProjectsResponse(j.fields["projects"]), ValidateSkillsResponse(j.fields["skills"]))
      case (Some(e), Some(x), Some(p), Some(s)) => Some((e, x, p, s))
      case _ => None
    else None
  }

  /** The bundle keeps all four answers: reading it back gives them unchanged. */
  lemma BundleRoundTrip(e: EducationResponse, x: ExperienceResponse, p: ProjectsResponse, s: SkillsResponse)
    ensures ParseBundle(Bundle(e, x, p, s)) == Some((e, x, p, s))
  {
    BundleEducation(e, x, p, s);
    BundleExperience(e, x, p, s);
    BundleProjects(e, x, p, s);
    BundleSkills(e, x, p, s);
    ParseBundleOf(Bundle(e, x, p, s), e, x, p, s);
  }

  /** A bundle whose four sections each validate reads back as those four answers. */
  lemma ParseBundleOf(j: Json, e: EducationResponse, x: ExperienceResponse, p: ProjectsResponse, s: SkillsResponse)
    requires j.JObject? && BundleKeys <= j.fields.Keys
    requires ValidateEducationResponse(j.fields["education"]) == Some(e)
    requires ValidateExperienceResponse(j.fields["experience"]) == Some(x)
    requires ValidateProjectsResponse(j.fields["projects"]) == Some(p)
    requires ValidateSkillsResponse(j.fields["skills"]) == Some(s)
    ensures ParseBundle(j) == Some((e, x, p, s))
  {
  }

  lemma BundleEducation(e: EducationResponse, x: ExperienceResponse, p: ProjectsResponse, s: SkillsResponse)
    ensures ValidateEducationResponse(Bundle(e, x, p, s).fields["education"]) == Some(e)
  {
    EducationResponseRoundTrip(e);
  }

  lemma BundleExperience(e: EducationResponse, x: ExperienceResponse, p: ProjectsResponse, s: SkillsResponse)
    ensures ValidateExperienceResponse(Bundle(e, x, p, s).fields["experience"]) == Some(x)
  {
    ExperienceResponseRoundTrip(x);
  }

  lemma BundleProjects(e: EducationResponse, x: ExperienceResponse, p: ProjectsResponse, s: SkillsResponse)
    ensures ValidateProjectsResponse(Bundle(e, x, p, s).fields["projects"]) == Some(p)
  {
    ProjectsResponseRoundTrip(p);
  }

  lemma BundleSkills(e: EducationResponse, x: ExperienceResponse, p: ProjectsResponse, s: SkillsResponse)
    ensures ValidateSkillsResponse(Bundle(e, x, p, s).fields["skills"]) == Some(s)
  {
    SkillsResponseRoundTrip(s);
  }

  // ---------------------------------------------------------------------
  // The model, the filesystem and the toolchain
  // ---------------------------------------------------------------------

  datatype SectionName = Education | Experience | Projects | Skills

  /**
   * What one model call is given: the section's prompt is built from the job
   * description, the extracted section, and for two sections a cap on how
   * many entries to keep.
   */
  datatype Request = Request(section: SectionName, jobDescription: string, userData: Json, limit: Option<nat>)

  /** The model as one oracle per response type; `None` is a failed call. */
  datatype ModelClient = ModelClient(
    education: Request -> Option<EducationResponse>,
    experience: Request -> Option<ExperienceResponse>,
    projects: Request -> Option<ProjectsResponse>,
    skills: Request -> Option<SkillsResponse>)

  /** Contents of a file: typesetting text, a JSON document, the fixed macro file, or PDF bytes. */
  datatype FileContent = Document(text: string) | JsonDocument(doc: Json) | FixedMacros | PdfDocument(bytes: seq<bv8>)

  /** The TeX toolchain: the PDF built from the files for a root document, or `None` when it fails. */
  type Toolchain = (map<string, FileContent>, string) -> Option<seq<bv8>>

  datatype Step = MadeDirs(path: string) | Invoked(request: Request) | Wrote(path: string) | Converted(input: string, outDir: string)

  datatype Outcome = Returned(path: string) | Raised(missing: SectionName)

  /** The filesystem a run works on, with a record of what the run did, in order. */
  class Environment {
    var dirs: set<string>
    var files: map<string, FileContent>
    ghost var trace: seq<Step>

    method MakeDirs(path: string)
      modifies this
      ensures dirs == old(dirs) + {path} && files == old(files)
      ensures trace == old(trace) + [MadeDirs(path)]
    {
      dirs := dirs + {path};
      trace := trace + [MadeDirs(path)];
    }

    method WriteFile(path: string, content: FileContent)
      modifies this
      ensures dirs == old(dirs) && files == old(files)[path := content]
      ensures trace == old(trace) + [Wrote(path)]
    {
      files := files[path := content];
      trace := trace + [Wrote(path)];
    }
  }

  /**
   * Builds the PDF for `inputPath` and moves it to `outDir`. A failing build
   * is reported and swallowed: nothing is written and nothing is raised.
   */
  method ConvertTexToPdf(env: Environment, toolchain: Toolchain, inputPath: string, outDir: string)
    modifies env
    ensures env.dirs == old(env.dirs)
    ensures env.files == match toolchain(old(env.files), inputPath)
      case Some(pdf) => old(env.files)[ConvertedPdfPath(outDir) := PdfDocument(pdf)]
      case None => old(env.files)
    ensures env.trace == old(env.trace) + [Converted(inputPath, outDir)]
      + (if toolchain(old(env.files), inputPath).Some? then [Wrote(ConvertedPdfPath(outDir))] else [])
  {
    env.trace := env.trace + [Converted(inputPath, outDir)];
    var result := toolchain(env.files, inputPath);
    if result.Some? {
      env.WriteFile(ConvertedPdfPath(outDir), PdfDocument(result.value));
    }
  }

  // ---------------------------------------------------------------------
  // The run (generate.py:97-159)
  // ---------------------------------------------------------------------

  function EducationRequest(record: ResumeRecord, jobDescription: string): Request {
    Request(Education, jobDescription, JList(EducationSection(record)), None)
  }

  function ExperienceRequest(record: ResumeRecord, jobDescription: string): Request {
    Request(Experience, jobDescription, JList(ExperienceSection(record)), Some(2))
  }

  function ProjectsRequest(record: ResumeRecord, jobDescription: string): Request {
    Request(Projects, jobDescription, JList(ProjectsSection(record)), Some(2))
  }

  function SkillsRequest(record: ResumeRecord, jobDescription: string): Request {
    Request(Skills, jobDescription, JList(SkillsSection(record)), None)
  }

  /** The four model calls of a run, in order; there is none for the heading. */
  function Requests(record: ResumeRecord, jobDescription: string): (rs: seq<Request>)
    ensures |rs| == 4 && forall i :: 0 <= i < 4 ==> rs[i].jobDescription == jobDescription
    ensures [rs[0].section, rs[1].section, rs[2].section, rs[3].section] == [Education, Experience, Projects, Skills]
    ensures forall i :: 0 <= i < 4 ==> rs[i].limit == (if rs[i].section in {Experience, Projects} then Some(2) else None)
  {
    [EducationRequest(record, jobDescription), ExperienceRequest(record, jobDescription),
     ProjectsRequest(record, jobDescription), SkillsRequest(record, jobDescription)]
  }

  /**
   * The section whose answer is dumped first while missing: the bundle is
   * built in the order education, experience, projects, skills, and dumping a
   * missing answer raises.
   */
  function Missing(client: ModelClient, record: ResumeRecord, jobDescription: string): (m: Option<SectionName>)
    ensures m.None? <==>
      && client.education(EducationRequest(record, jobDescription)).Some?
      && client.experience(ExperienceRequest(record, jobDescription)).Some?
      && client.projects(ProjectsRequest(record, jobDescription)).Some?
      && client.skills(SkillsRequest(record, jobDescription)).Some?
    ensures m == Some(Experience) ==> client.education(EducationRequest(record, jobDescription)).Some?
    ensures m == Some(Projects) ==>
      client.education(EducationRequest(record, jobDescription)).Some?
      && client.experience(ExperienceRequest(record, jobDescription)).Some?
    ensures m == Some(Skills) ==>
      client.education(EducationRequest(record, jobDescription)).Some?
      && client.experience(ExperienceRequest(record, jobDescription)).Some?
      && client.projects(ProjectsRequest(record, jobDescription)).Some?
    ensures m.Some? ==> match m.value
      case Education => client.education(EducationRequest(record, jobDescription)).None?
      case Experience => client.experience(ExperienceRequest(record, jobDescription)).None?
      case Projects => client.projects(ProjectsRequest(record, jobDescription)).None?
      case Skills => client.skills(SkillsRequest(record, jobDescription)).None?
  {
    if client.education(EducationRequest(record, jobDescription)).None? then Some(Education)
    else if client.experience(ExperienceRequest(record, jobDescription)).None? then Some(Experience)
    else if client.projects(ProjectsRequest(record, jobDescription)).None? then Some(Projects)
    else if client.skills(SkillsRequest(record, jobDescription)).None? then Some(Skills)
    else None
  }

  /** What a completed run writes: the bundle, then the texts of the root document and the five fragments. */
  datatype RunFiles = RunFiles(bundle: Json, root: string, heading: string, education: string,
                               skills: string, experience: string, projects: string)

  /** The contents a completed run renders from the heading and the four answers. */
  function RenderRun(jobId: string, h: HeadingData,
                     e: EducationResponse, x: ExperienceResponse, p: ProjectsResponse, s: SkillsResponse): RunFiles {
    RunFiles(Bundle(e, x, p, s), Flatten(RootDocument(OutputPath(jobId))), Flatten(RenderHeading(h)),
             Flatten(RenderEducation(e)), Flatten(RenderSkills(s)), Flatten(RenderExperience(x)), Flatten(RenderProjects(p)))
  }

  /** The files after the JSON bundle and the seven typesetting files are written, in write order. */
  function Written(files: map<string, FileContent>, jobId: string, out: RunFiles): map<string, FileContent> {
    files[JsonPath(jobId) := JsonDocument(out.bundle)]
         [RootTexPath(jobId) := Document(out.root)]
         [CustomCommandsPath(jobId) := FixedMacros]
         [FragmentPath(jobId, "heading") := Document(out.heading)]
         [FragmentPath(jobId, "education") := Document(out.education)]
         [FragmentPath(jobId, "skills") := Document(out.skills)]
         [FragmentPath(jobId, "experience") := Document(out.experience)]
         [FragmentPath(jobId, "projects") := Document(out.projects)]
  }

  /** The files after conversion: the PDF is added only when the toolchain succeeds. */
  function AfterConversion(files: map<string, FileContent>, toolchain: Toolchain, jobId: string): map<string, FileContent> {
    match toolchain(files, RootTexPath(jobId))
    case Some(pdf) => files[ResumePdfPath(jobId) := PdfDocument(pdf)]
    case None => files
  }

  /** The eight writes of a completed run. */
  function WriteSteps(jobId: string): seq<Step> {
    [Wrote(JsonPath(jobId)), Wrote(RootTexPath(jobId)), Wrote(CustomCommandsPath(jobId)),
     Wrote(FragmentPath(jobId, "heading")), Wrote(FragmentPath(jobId, "education")), Wrote(FragmentPath(jobId, "skills")),
     Wrote(FragmentPath(jobId, "experience")), Wrote(FragmentPath(jobId, "projects"))]
  }

  /** The writes follow `RunPaths`: the bundle first, then the root document, the macros and the fragments. */
  lemma WriteStepsFollowRunPaths(jobId: string)
    ensures |WriteSteps(jobId)| == 8
    ensures forall k :: 0 <= k < 8 ==> WriteSteps(jobId)[k] == Wrote(RunPaths(jobId)[k])
  {
  }

  /** The conversion, and the PDF it writes when it succeeds. */
  function ConvertSteps(jobId: string, pdfMade: bool): seq<Step> {
    [Converted(RootTexPath(jobId), JobDir(jobId))] + (if pdfMade then [Wrote(ResumePdfPath(jobId))] else [])
  }

  function InvokeSteps(record: ResumeRecord, jobDescription: string): seq<Step> {
    var rs := Requests(record, jobDescription);
    [Invoked(rs[0]), Invoked(rs[1]), Invoked(rs[2]), Invoked(rs[3])]
  }

  /**
   * The JSON bundle, then the root document, the macro file and the five
   * section fragments, each written in turn.
   */
  method WriteOutputs(env: Environment, jobId: string, out: RunFiles)
    modifies env
    ensures env.dirs == old(env.dirs)
    ensures env.files == Written(old(env.files), jobId, out)
    ensures env.trace == old(env.trace) + WriteSteps(jobId)
  {
    ghost var before := env.trace;
    ghost var steps := WriteSteps(jobId);
    env.WriteFile(JsonPath(jobId), JsonDocument(out.bundle));
    assert env.trace == before + steps[..1];
    env.WriteFile(RootTexPath(jobId), Document(out.root));
    assert env.trace == before + steps[..2];
    env.WriteFile(CustomCommandsPath(jobId), FixedMacros);
    assert env.trace == before + steps[..3];
    env.WriteFile(FragmentPath(jobId, "heading"), Document(out.heading));
    assert env.trace == before + steps[..4];
    env.WriteFile(FragmentPath(jobId, "education"), Document(out.education));
    assert env.trace == before + steps[..5];
    env.WriteFile(FragmentPath(jobId, "skills"), Document(out.skills));
    assert env.trace == before + steps[..6];
    env.WriteFile(FragmentPath(jobId, "experience"), Document(out.experience));
    assert env.trace == before + steps[..7];
    env.WriteFile(FragmentPath(jobId, "projects"), Document(out.projects));
    assert steps[..8] == steps;
  }

  /** The four model calls, each recorded as it is made, with the extracted sections as user data. */
  method RequestSections(env: Environment, client: ModelClient, record: ResumeRecord, jobDescription: string,
                         sections: map<string, Json>)
    returns (educationOut: Option<EducationResponse>, experienceOut: Option<ExperienceResponse>,
             projectsOut: Option<ProjectsResponse>, skillsOut: Option<SkillsResponse>)
    requires sections.Keys == SectionKeys
    requires sections["education"] == JList(EducationSection(record))
    requires sections["experience"] == JList(ExperienceSection(record))
    requires sections["projects"] == JList(ProjectsSection(record))
    requires sections["skills"] == JList(SkillsSection(record))
    modifies env
    ensures educationOut == client.education(EducationRequest(record, jobDescription))
    ensures experienceOut == client.experience(ExperienceRequest(record, jobDescription))
    ensures projectsOut == client.projects(ProjectsRequest(record, jobDescription))
    ensures skillsOut == client.skills(SkillsRequest(record, jobDescription))
    ensures env.dirs == old(env.dirs) && env.files == old(env.files)
    ensures env.trace == old(env.trace) + InvokeSteps(record, jobDescription)
  {
    educationOut := client.education(Request(Education, jobDescription, sections["education"], None));
    env.trace := env.trace + [Invoked(EducationRequest(record, jobDescription))];
    experienceOut := client.experience(Request(Experience, jobDescription, sections["experience"], Some(2)));
    env.trace := env.trace + [Invoked(ExperienceRequest(record, jobDescription))];
    projectsOut := client.projects(Request(Projects, jobDescription, sections["projects"], Some(2)));
    env.trace := env.trace + [Invoked(ProjectsRequest(record, jobDescription))];
    skillsOut := client.skills(Request(Skills, jobDescription, sections["skills"], None));
    env.trace := env.trace + [Invoked(SkillsRequest(record, jobDescription))];
  }

  /**
   * One run. The source directory is made and all four sections are requested
   * before anything is checked. A missing answer then raises before any file
   * is written. Otherwise the bundle and the seven files are written and the
   * PDF is built; the returned path does not depend on whether that worked.
   */
  method GenerateResume(env: Environment, client: ModelClient, toolchain: Toolchain,
                        record: ResumeRecord, jobDescription: string, applicationId: string)
    returns (outcome: Outcome)
    modifies env
    ensures env.dirs == old(env.dirs) + {SrcPath(applicationId)}
    ensures Missing(client, record, jobDescription).Some? ==>
      && outcome == Raised(Missing(client, record, jobDescription).value)
      && env.files == old(env.files)
      && env.trace == old(env.trace) + [MadeDirs(SrcPath(applicationId))] + InvokeSteps(record, jobDescription)
    ensures Missing(client, record, jobDescription).None? ==>
      var written := Written(old(env.files), applicationId, RenderRun(applicationId, HeadingOf(record),
        client.education(EducationRequest(record, jobDescription)).value,
        client.experience(ExperienceRequest(record, jobDescription)).value,
        client.projects(ProjectsRequest(record, jobDescription)).value,
        client.skills(SkillsRequest(record, jobDescription)).value));
      && outcome == Returned(ResumePdfPath(applicationId))
      && env.files == AfterConversion(written, toolchain, applicationId)
      && env.trace == old(env.trace) + [MadeDirs(SrcPath(applicationId))] + InvokeSteps(record, jobDescription)
           + WriteSteps(applicationId) + ConvertSteps(applicationId, toolchain(written, RootTexPath(applicationId)).Some?)
  {
    var sections := LoadAndExtractResumeData(record);
    var heading := ValidateHeading(sections["heading"]).value;
    env.MakeDirs(SrcPath(applicationId));
    var educationOut, experienceOut, projectsOut, skillsOut := RequestSections(env, client, record, jobDescription, sections);

    // Building the bundle dumps each answer in turn; a missing one raises there.
    if educationOut.None? { return Raised(Education); }
    if experienceOut.None? { return Raised(Experience); }
    if projectsOut.None? { return Raised(Projects); }
    if skillsOut.None? { return Raised(Skills); }

    var out := RenderRun(applicationId, heading, educationOut.value, experienceOut.value, projectsOut.value, skillsOut.value);
    outcome := FinishRun(env, toolchain, applicationId, out);
  }

  /** The writes and the conversion of a run whose four answers all arrived. */
  method FinishRun(env: Environment, toolchain: Toolchain, applicationId: string, out: RunFiles)
    returns (outcome: Outcome)
    modifies env
    ensures outcome == Returned(ResumePdfPath(applicationId))
    ensures env.dirs == old(env.dirs)
    ensures env.files == AfterConversion(Written(old(env.files), applicationId, out), toolchain, applicationId)
    ensures env.trace == old(env.trace) + WriteSteps(applicationId)
      + ConvertSteps(applicationId, toolchain(Written(old(env.files), applicationId, out), RootTexPath(applicationId)).Some?)
  {
    WriteOutputs(env, applicationId, out);
    ConvertedPdfIsReturnedPath(applicationId);
    ConvertTexToPdf(env, toolchain, RootTexPath(applicationId), JobDir(applicationId));
    outcome := Returned(ResumePdfPath(applicationId));
  }

  // ---------------------------------------------------------------------
  // What a completed run leaves behind
  // ---------------------------------------------------------------------

  /** The eight writes add exactly the run's own paths and change no other file. */
  lemma WrittenKeys(files: map<string, FileContent>, jobId: string, out: RunFiles)
    ensures var w := Written(files, jobId, out);
      && (forall q :: q in w <==> q in files || q in RunPaths(jobId)[..8])
      && (forall q :: q in files && q !in RunPaths(jobId)[..8] ==> w[q] == files[q])
      && (ResumePdfPath(jobId) in files ==> w[ResumePdfPath(jobId)] == files[ResumePdfPath(jobId)])
  {
    var ps := RunPaths(jobId);
    var w := Written(files, jobId, out);
    forall q
      ensures q in ps[..8] <==> q == ps[0] || q == ps[1] || q == ps[2] || q == ps[3] || q == ps[4] || q == ps[5] || q == ps[6] || q == ps[7]
      ensures q in w <==> q in files || q in ps[..8]
      ensures q in files && q !in ps[..8] ==> w[q] == files[q]
    {
      assert q in ps[..8] <==> q == ps[0] || q == ps[1] || q == ps[2] || q == ps[3] || q == ps[4] || q == ps[5] || q == ps[6] || q == ps[7];
    }
    RunPathsDistinct(jobId);
    assert ps[8] == ResumePdfPath(jobId);
    assert ps[8] !in ps[..8];
  }

  /**
   * Each of the eight files holds what was written to it: no later write of
   * the run lands on an earlier one's path.
   */
  lemma WrittenContents(files: map<string, FileContent>, jobId: string, out: RunFiles)
    ensures var w := Written(files, jobId, out);
      && JsonPath(jobId) in w && w[JsonPath(jobId)] == JsonDocument(out.bundle)
      && RootTexPath(jobId) in w && w[RootTexPath(jobId)] == Document(out.root)
      && CustomCommandsPath(jobId) in w && w[CustomCommandsPath(jobId)] == FixedMacros
      && FragmentPath(jobId, "heading") in w && w[FragmentPath(jobId, "heading")] == Document(out.heading)
      && FragmentPath(jobId, "education") in w && w[FragmentPath(jobId, "education")] == Document(out.education)
      && FragmentPath(jobId, "skills") in w && w[FragmentPath(jobId, "skills")] == Document(out.skills)
      && FragmentPath(jobId, "experience") in w && w[FragmentPath(jobId, "experience")] == Document(out.experience)
      && FragmentPath(jobId, "projects") in w && w[FragmentPath(jobId, "projects")] == Document(out.projects)
  {
    RunPathsDistinct(jobId);
    var ps := RunPaths(jobId);
    assert ps[0] != ps[1] && ps[0] != ps[2] && ps[0] != ps[3] && ps[0] != ps[4] && ps[0] != ps[5] && ps[0] != ps[6] && ps[0] != ps[7];
    assert ps[1] != ps[2] && ps[1] != ps[3] && ps[1] != ps[4] && ps[1] != ps[5] && ps[1] != ps[6] && ps[1] != ps[7];
    assert ps[2] != ps[3] && ps[2] != ps[4] && ps[2] != ps[5] && ps[2] != ps[6] && ps[2] != ps[7];
    assert ps[3] != ps[4] && ps[3] != ps[5] && ps[3] != ps[6] && ps[3] != ps[7];
    assert ps[4] != ps[5] && ps[4] != ps[6] && ps[4] != ps[7];
    assert ps[5] != ps[6] && ps[5] != ps[7];
    assert ps[6] != ps[7];
  }

  /** A completed run's bundle reads back as the four answers. */
  lemma CompletedRunBundle(files: map<string, FileContent>, jobId: string, h: HeadingData,
                           e: EducationResponse, x: ExperienceResponse, p: ProjectsResponse, s: SkillsResponse)
    ensures var w := Written(files, jobId, RenderRun(jobId, h, e, x, p, s));
      && JsonPath(jobId) in w && w[JsonPath(jobId)].JsonDocument?
      && ParseBundle(w[JsonPath(jobId)].doc) == Some((e, x, p, s))
  {
    var out := RenderRun(jobId, h, e, x, p, s);
    WrittenContents(files, jobId, out);
    assert out.bundle == Bundle(e, x, p, s);
    BundleRoundTrip(e, x, p, s);
  }

  /** A completed run's heading fragment shows the extracted name, phone and e-mail address. */
  lemma CompletedRunHeading(files: map<string, FileContent>, jobId: string, h: HeadingData,
                            e: EducationResponse, x: ExperienceResponse, p: ProjectsResponse, s: SkillsResponse)
    ensures var w := Written(files, jobId, RenderRun(jobId, h, e, x, p, s));
      && FragmentPath(jobId, "heading") in w && w[FragmentPath(jobId, "heading")].Document?
      && Contains(w[FragmentPath(jobId, "heading")].text, h.name)
      && Contains(w[FragmentPath(jobId, "heading")].text, h.phone)
      && Contains(w[FragmentPath(jobId, "heading")].text, h.email)
  {
    var out := RenderRun(jobId, h, e, x, p, s);
    WrittenContents(files, jobId, out);
    assert out.heading == Flatten(RenderHeading(h));
    HeadingShowsContacts(h);
  }

  /** A completed run for one application leaves every file of another application as it was. */
  lemma RunsDoNotInterfere(files: map<string, FileContent>, toolchain: Toolchain, a: string, b: string, out: RunFiles)
    requires a != b
    ensures var after := AfterConversion(Written(files, b, out), toolchain, b);
      forall k :: 0 <= k < 9 && RunPaths(a)[k] in files ==> RunPaths(a)[k] in after && after[RunPaths(a)[k]] == files[RunPaths(a)[k]]
  {
    RunPathsDisjoint(a, b);
    WrittenKeys(files, b, out);
    var w := Written(files, b, out);
    forall k | 0 <= k < 9 && RunPaths(a)[k] in files
      ensures RunPaths(a)[k] in w && w[RunPaths(a)[k]] == files[RunPaths(a)[k]]
      ensures RunPaths(a)[k] != ResumePdfPath(b)
    {
      assert RunPaths(a)[k] !in RunPaths(b);
      assert ResumePdfPath(b) == RunPaths(b)[8];
    }
  }

  /**
   * The returned path holds the new PDF only when the toolchain succeeds;
   * after a failure whatever was there before (a PDF of an earlier run for the
   * same id, or nothing) is left in place.
   */
  lemma FailedConversionKeepsOldPdf(files: map<string, FileContent>, toolchain: Toolchain, jobId: string)
    ensures toolchain(files, RootTexPath(jobId)).None? ==> AfterConversion(files, toolchain, jobId) == files
    ensures toolchain(files, RootTexPath(jobId)).Some? ==>
      AfterConversion(files, toolchain, jobId)[ResumePdfPath(jobId)] == PdfDocument(toolchain(files, RootTexPath(jobId)).value)
  {
  }
}
