/**
 * The typesetting fragments (utils.py write_*_to_latex and
 * write_resume_dot_tex) as template expansions. Each renderer gives the piece
 * sequence of its template; the file receives `Flatten` of it. Template text
 * keeps the templates' token order; its whitespace is approximate. For each
 * section a parser reads the values back, and parsing a rendering gives back
 * the rendered record: every value lands in its own slot, once, in order.
 */
module Render {
  import opened Wrappers
  import opened Text
  import opened Template
  import opened Responses

  // Template text shared by several sections.
  const SubHeadingListEnd := "\\resumeSubHeadingListEnd\n"
  const SubheadingOpen := "\\resumeSubheading\n    { "
  const FieldBreak := " }{ "
  const RowBreak := " }\n    { "
  const ItemOpen := "        \\resumeItem{ "
  const ItemClose := " }\n"
  const ListSeparator := ", "

  lemma SeqAssoc4(a: seq<Piece>, b: seq<Piece>, c: seq<Piece>, d: seq<Piece>, rest: seq<Piece>)
    ensures a + b + c + d + rest == a + (b + (c + (d + rest)))
  {
  }

  lemma SeqAssoc5(a: seq<Piece>, b: seq<Piece>, c: seq<Piece>, d: seq<Piece>, e: seq<Piece>, rest: seq<Piece>)
    ensures a + b + c + d + e + rest == a + (b + (c + (d + (e + rest))))
  {
  }

  // ---------------------------------------------------------------------
  // Education (utils.py:153-168)
  // ---------------------------------------------------------------------

  const EducationOpen := "\n%-----------EDUCATION-----------%\n\\section{Education}\n\\resumeSubHeadingListStart\n"
  const DegreeGap := " "
  const GpaOpen := "(GPA: "
  const GpaClose := ")"
  const EducationRowEnd := " }\n"
  const CourseworkOpen := "    \\resumeItemListStart\n        \\resumeItem{\\textbf{Relevant Coursework:} "
  const CourseworkClose := " }\n    \\resumeItemListEnd\n"

  /** `{% if edu.gpa %}(GPA: {{ edu.gpa }}){% endif %}` */
  function GpaBlock(gpa: string): seq<Piece> {
    if gpa != "" then [Lit(GpaOpen), Val(gpa), Lit(GpaClose)] else []
  }

  /** `{% if edu.relevant_coursework %}` ... `{{ edu.relevant_coursework|join(', ') }}` ... `{% endif %}` */
  function CourseworkBlock(courses: seq<string>): seq<Piece> {
    if courses != [] then [Lit(CourseworkOpen)] + LoopLast(courses, ListSeparator) + [Lit(CourseworkClose)] else []
  }

  function EducationEntry(e: EducationItem): seq<Piece> {
    [Lit(SubheadingOpen), Val(e.university), Lit(FieldBreak), Val(e.duration), Lit(RowBreak), Val(e.degree), Lit(DegreeGap)]
    + GpaBlock(e.gpa)
    + [Lit(FieldBreak), Val(e.location), Lit(EducationRowEnd)]
    + CourseworkBlock(e.relevant_coursework)
  }

  function EducationEntries(es: seq<EducationItem>): seq<Piece> {
    if es == [] then [] else EducationEntry(es[0]) + EducationEntries(es[1..])
  }

  function RenderEducation(r: EducationResponse): seq<Piece> {
    [Lit(EducationOpen)] + EducationEntries(r.education) + [Lit(SubHeadingListEnd)]
  }

  /** The GPA parenthetical is written for an entry exactly when its GPA is non-empty. */
  lemma EducationGpaShownIffNonEmpty(e: EducationItem)
    ensures Lit(GpaOpen) in EducationEntry(e) <==> e.gpa != ""
  {
    var entry := EducationEntry(e);
    if e.gpa != "" {
      assert entry[7] == Lit(GpaOpen);
    } else {
      assert entry == [Lit(SubheadingOpen), Val(e.university), Lit(FieldBreak), Val(e.duration), Lit(RowBreak), Val(e.degree), Lit(DegreeGap)]
        + [Lit(FieldBreak), Val(e.location), Lit(EducationRowEnd)] + CourseworkBlock(e.relevant_coursework);
      LoopLastHasNoLiteral(e.relevant_coursework, GpaOpen);
    }
  }

  /** The coursework block is written exactly when the course list is non-empty. */
  lemma EducationCourseworkShownIffNonEmpty(e: EducationItem)
    ensures Lit(CourseworkOpen) in EducationEntry(e) <==> e.relevant_coursework != []
  {
    var entry := EducationEntry(e);
    var head := [Lit(SubheadingOpen), Val(e.university), Lit(FieldBreak), Val(e.duration), Lit(RowBreak), Val(e.degree), Lit(DegreeGap)]
      + GpaBlock(e.gpa) + [Lit(FieldBreak), Val(e.location), Lit(EducationRowEnd)];
    assert entry == head + CourseworkBlock(e.relevant_coursework);
    assert Lit(CourseworkOpen) !in head;
    if e.relevant_coursework != [] {
      assert entry[|head|] == Lit(CourseworkOpen);
    } else {
      assert entry == head;
    }
  }

  lemma {:induction false} LoopLastHasNoLiteral(xs: seq<string>, lit: string)
    requires lit != ListSeparator
    ensures Lit(lit) !in LoopLast(xs, ListSeparator)
  {
    OccurrencesLoopLastFrom(xs, 0, ListSeparator, Lit(lit));
    OccurrencesZeroNotIn(LoopLast(xs, ListSeparator), Lit(lit));
  }

  lemma {:induction false} OccurrencesZeroNotIn(ps: seq<Piece>, p: Piece)
    requires Occurrences(ps, p) == 0
    ensures p !in ps
  {
    if ps != [] {
      OccurrencesZeroNotIn(ps[1..], p);
      assert ps == [ps[0]] + ps[1..];
    }
  }

  /** Each education entry opens with exactly one `\resumeSubheading`. */
  lemma EducationEntrySubheadings(e: EducationItem)
    ensures Occurrences(EducationEntry(e), Lit(SubheadingOpen)) == 1
  {
    var p := Lit(SubheadingOpen);
    var head := [Lit(SubheadingOpen), Val(e.university), Lit(FieldBreak), Val(e.duration), Lit(RowBreak), Val(e.degree), Lit(DegreeGap)];
    var mid := [Lit(FieldBreak), Val(e.location), Lit(EducationRowEnd)];
    var gpa := GpaBlock(e.gpa);
    var courses := CourseworkBlock(e.relevant_coursework);
    OccurrencesOfFour(head, gpa, mid, courses, p);
    OccurrencesOnlyFirst(head, p);
    OccurrencesAbsent(gpa, p);
    OccurrencesAbsent(mid, p);
    CourseworkHasNoSubheading(e.relevant_coursework);
  }

  lemma CourseworkHasNoSubheading(courses: seq<string>)
    ensures Occurrences(CourseworkBlock(courses), Lit(SubheadingOpen)) == 0
  {
    var p := Lit(SubheadingOpen);
    if courses != [] {
      OccurrencesLoopLastFrom(courses, 0, ListSeparator, p);
      OccurrencesAppend([Lit(CourseworkOpen)], LoopLast(courses, ListSeparator), p);
      OccurrencesAppend([Lit(CourseworkOpen)] + LoopLast(courses, ListSeparator), [Lit(CourseworkClose)], p);
      OccurrencesAbsent([Lit(CourseworkOpen)], p);
      OccurrencesAbsent([Lit(CourseworkClose)], p);
    }
  }

  /** One `\resumeSubheading` per education entry: the section opens exactly one per entry and no other. */
  lemma {:induction false} EducationSubheadingCount(es: seq<EducationItem>)
    ensures Occurrences(EducationEntries(es), Lit(SubheadingOpen)) == |es|
  {
    if es != [] {
      EducationEntrySubheadings(es[0]);
      OccurrencesAppend(EducationEntry(es[0]), EducationEntries(es[1..]), Lit(SubheadingOpen));
      EducationSubheadingCount(es[1..]);
    }
  }

  // Parsing education back.

  function ParseGpa(ps: seq<Piece>): (r: (string, seq<Piece>))
    ensures |r.1| <= |ps|
  {
    if |ps| >= 3 && ps[0] == Lit(GpaOpen) && ps[1].Val? && ps[2] == Lit(GpaClose) then (ps[1].text, ps[3..]) else ("", ps)
  }

  function ParseCoursework(ps: seq<Piece>): (r: (seq<string>, seq<Piece>))
    ensures |r.1| <= |ps|
  {
    if |ps| >= 1 && ps[0] == Lit(CourseworkOpen) then
      var (courses, rest) := ParseSeparated(ps[1..], ListSeparator);
      if |rest| >= 1 && rest[0] == Lit(CourseworkClose) then (courses, rest[1..]) else ([], ps)
    else ([], ps)
  }

  function ParseEducationEntry(ps: seq<Piece>): (r: Option<(EducationItem, seq<Piece>)>)
    ensures r.Some? ==> |r.value.1| < |ps|
  {
    if |ps| >= 7 && ps[0] == Lit(SubheadingOpen) && ps[1].Val? && ps[2] == Lit(FieldBreak) && ps[3].Val?
       && ps[4] == Lit(RowBreak) && ps[5].Val? && ps[6] == Lit(DegreeGap) then
      var (gpa, r1) := ParseGpa(ps[7..]);
      if |r1| >= 3 && r1[0] == Lit(FieldBreak) && r1[1].Val? && r1[2] == Lit(EducationRowEnd) then
        var (courses, r2) := ParseCoursework(r1[3..]);
        Some((EducationItem(ps[1].text, ps[3].text, ps[5].text, r1[1].text, gpa, courses), r2))
      else None
    else None
  }

  function ParseEducationEntries(ps: seq<Piece>): (seq<EducationItem>, seq<Piece>)
    decreases |ps|
  {
    if |ps| > 0 && ps[0] == Lit(SubheadingOpen) then
      match ParseEducationEntry(ps)
      case Some((e, rest)) =>
        var (es, r2) := ParseEducationEntries(rest);
        ([e] + es, r2)
      case None => ([], ps)
    else ([], ps)
  }

  function ParseEducation(ps: seq<Piece>): Option<EducationResponse> {
    if |ps| >= 1 && ps[0] == Lit(EducationOpen) then
      var (es, rest) := ParseEducationEntries(ps[1..]);
      if rest == [Lit(SubHeadingListEnd)] then Some(EducationResponse(es)) else None
    else None
  }

  lemma ParseGpaBlock(gpa: string, rest: seq<Piece>)
    requires StopsBefore(rest, GpaOpen)
    ensures ParseGpa(GpaBlock(gpa) + rest) == (gpa, rest)
  {
    if gpa != "" {
      var ps := GpaBlock(gpa) + rest;
      assert ps[3..] == rest;
    } else {
      assert GpaBlock(gpa) + rest == rest;
    }
  }

  lemma ParseCourseworkBlock(courses: seq<string>, rest: seq<Piece>)
    requires StopsBefore(rest, CourseworkOpen)
    ensures ParseCoursework(CourseworkBlock(courses) + rest) == (courses, rest)
  {
    if courses != [] {
      var tail := [Lit(CourseworkClose)] + rest;
      SeqAssoc4([Lit(CourseworkOpen)], LoopLast(courses, ListSeparator), [Lit(CourseworkClose)], [], rest);
      assert CourseworkBlock(courses) + [] == CourseworkBlock(courses);
      assert [Lit(CourseworkClose)] + ([] + rest) == tail;
      ParseLoopLast(courses, ListSeparator, tail);
      ParseCourseworkAt([Lit(CourseworkOpen)] + (LoopLast(courses, ListSeparator) + tail), courses, rest);
    } else {
      assert CourseworkBlock(courses) + rest == rest;
    }
  }

  lemma ParseCourseworkAt(ps: seq<Piece>, courses: seq<string>, rest: seq<Piece>)
    requires ps == [Lit(CourseworkOpen)] + (LoopLast(courses, ListSeparator) + ([Lit(CourseworkClose)] + rest))
    requires ParseSeparated(LoopLast(courses, ListSeparator) + ([Lit(CourseworkClose)] + rest), ListSeparator)
      == (courses, [Lit(CourseworkClose)] + rest)
    ensures ParseCoursework(ps) == (courses, rest)
  {
    assert ps[1..] == LoopLast(courses, ListSeparator) + ([Lit(CourseworkClose)] + rest);
    assert ([Lit(CourseworkClose)] + rest)[1..] == rest;
  }

  lemma ParseEducationEntryRoundTrip(e: EducationItem, rest: seq<Piece>)
    requires StopsBefore(rest, CourseworkOpen)
    ensures ParseEducationEntry(EducationEntry(e) + rest) == Some((e, rest))
  {
    var head := [Lit(SubheadingOpen), Val(e.university), Lit(FieldBreak), Val(e.duration), Lit(RowBreak), Val(e.degree), Lit(DegreeGap)];
    var mid := [Lit(FieldBreak), Val(e.location), Lit(EducationRowEnd)];
    var gpa := GpaBlock(e.gpa);
    var courses := CourseworkBlock(e.relevant_coursework);
    var afterGpa := mid + (courses + rest);
    SeqAssoc4(head, gpa, mid, courses, rest);
    ParseGpaBlock(e.gpa, afterGpa);
    ParseCourseworkBlock(e.relevant_coursework, rest);
    ParseEducationEntryAt(head + (gpa + afterGpa), e, rest);
  }

  /** The parser reads an entry laid out as the renderer lays it out, once the optional blocks parse. */
  lemma ParseEducationEntryAt(ps: seq<Piece>, e: EducationItem, rest: seq<Piece>)
    requires var mid := [Lit(FieldBreak), Val(e.location), Lit(EducationRowEnd)];
      var afterGpa := mid + (CourseworkBlock(e.relevant_coursework) + rest);
      && ps == [Lit(SubheadingOpen), Val(e.university), Lit(FieldBreak), Val(e.duration), Lit(RowBreak), Val(e.degree), Lit(DegreeGap)]
         + (GpaBlock(e.gpa) + afterGpa)
      && ParseGpa(GpaBlock(e.gpa) + afterGpa) == (e.gpa, afterGpa)
      && ParseCoursework(CourseworkBlock(e.relevant_coursework) + rest) == (e.relevant_coursework, rest)
    ensures ParseEducationEntry(ps) == Some((e, rest))
  {
    var mid := [Lit(FieldBreak), Val(e.location), Lit(EducationRowEnd)];
    var afterGpa := mid + (CourseworkBlock(e.relevant_coursework) + rest);
    assert ps[7..] == GpaBlock(e.gpa) + afterGpa;
    assert afterGpa[3..] == CourseworkBlock(e.relevant_coursework) + rest;
  }

  lemma EducationEntryStarts(e: EducationItem)
    ensures |EducationEntry(e)| > 0 && EducationEntry(e)[0] == Lit(SubheadingOpen)
  {
    var head := [Lit(SubheadingOpen), Val(e.university), Lit(FieldBreak), Val(e.duration), Lit(RowBreak), Val(e.degree), Lit(DegreeGap)];
    assert EducationEntry(e) == head + (EducationEntry(e)[7..]);
  }

  lemma EducationEntriesStart(es: seq<EducationItem>, rest: seq<Piece>)
    requires es != []
    ensures EducationEntries(es) + rest == EducationEntry(es[0]) + (EducationEntries(es[1..]) + rest)
    ensures (EducationEntries(es) + rest)[0] == Lit(SubheadingOpen)
  {
    EducationEntryStarts(es[0]);
  }

  lemma ParseEducationEntriesStep(ps: seq<Piece>, e: EducationItem, rest: seq<Piece>)
    requires |ps| > 0 && ps[0] == Lit(SubheadingOpen)
    requires ParseEducationEntry(ps) == Some((e, rest))
    ensures ParseEducationEntries(ps) == ([e] + ParseEducationEntries(rest).0, ParseEducationEntries(rest).1)
  {
  }

  lemma {:induction false} ParseEducationEntriesRoundTrip(es: seq<EducationItem>, rest: seq<Piece>)
    requires StopsBefore(rest, SubheadingOpen) && StopsBefore(rest, CourseworkOpen)
    ensures ParseEducationEntries(EducationEntries(es) + rest) == (es, rest)
  {
    if es == [] {
      assert EducationEntries(es) + rest == rest;
    } else {
      var tail := EducationEntries(es[1..]) + rest;
      EducationEntriesStart(es, rest);
      if es[1..] != [] {
        EducationEntriesStart(es[1..], rest);
      } else {
        assert tail == rest;
      }
      ParseEducationEntryRoundTrip(es[0], tail);
      ParseEducationEntriesStep(EducationEntry(es[0]) + tail, es[0], tail);
      ParseEducationEntriesRoundTrip(es[1..], rest);
      assert es == [es[0]] + es[1..];
    }
  }

  /**
   * Rendering loses nothing: parsing the education fragment gives back the
   * response, so each entry is written once, in order, and the omitted GPA and
   * coursework blocks stand exactly for "" and [].
   */
  lemma EducationRoundTrip(r: EducationResponse)
    ensures ParseEducation(RenderEducation(r)) == Some(r)
  {
    var ps := RenderEducation(r);
    assert ps[1..] == EducationEntries(r.education) + [Lit(SubHeadingListEnd)];
    ParseEducationEntriesRoundTrip(r.education, [Lit(SubHeadingListEnd)]);
  }

  // ---------------------------------------------------------------------
  // Experience (utils.py:49-63)
  // ---------------------------------------------------------------------

  const ExperienceOpen := "\n\\section{Experience}\n\\resumeSubHeadingListStart\n"
  const RoleToolsGap := " | \\emph{ "
  const ToolsClose := " } }{ "
  const ExperienceRowEnd := " }\n    \\resumeItemListStart\n"
  const ExperienceItemListEnd := "    \\resumeItemListEnd\n"

  function ExperienceEntry(x: ExperienceItem): seq<Piece> {
    [Lit(SubheadingOpen), Val(x.company), Lit(FieldBreak), Val(x.duration), Lit(RowBreak), Val(x.role), Lit(RoleToolsGap)]
    + LoopLast(x.tools, ListSeparator)
    + [Lit(ToolsClose), Val(x.location), Lit(ExperienceRowEnd)]
    + Repeat(x.responsibilities, ItemOpen, ItemClose)
    + [Lit(ExperienceItemListEnd)]
  }

  lemma ExperienceEntryStarts(x: ExperienceItem)
    ensures |ExperienceEntry(x)| > 0 && ExperienceEntry(x)[0] == Lit(SubheadingOpen)
  {
    var head := [Lit(SubheadingOpen), Val(x.company), Lit(FieldBreak), Val(x.duration), Lit(RowBreak), Val(x.role), Lit(RoleToolsGap)];
    assert ExperienceEntry(x) == head + (ExperienceEntry(x)[7..]);
  }

  function ExperienceEntries(xs: seq<ExperienceItem>): seq<Piece> {
    if xs == [] then [] else ExperienceEntry(xs[0]) + ExperienceEntries(xs[1..])
  }

  function RenderExperience(r: ExperienceResponse): seq<Piece> {
    [Lit(ExperienceOpen)] + ExperienceEntries(r.experiences) + [Lit(SubHeadingListEnd)]
  }

  function ParseExperienceEntry(ps: seq<Piece>): (r: Option<(ExperienceItem, seq<Piece>)>)
    ensures r.Some? ==> |r.value.1| < |ps|
  {
    if |ps| >= 7 && ps[0] == Lit(SubheadingOpen) && ps[1].Val? && ps[2] == Lit(FieldBreak) && ps[3].Val?
       && ps[4] == Lit(RowBreak) && ps[5].Val? && ps[6] == Lit(RoleToolsGap) then
      var (tools, r1) := ParseSeparated(ps[7..], ListSeparator);
      if |r1| >= 3 && r1[0] == Lit(ToolsClose) && r1[1].Val? && r1[2] == Lit(ExperienceRowEnd) then
        var (responsibilities, r2) := ParseRepeated(r1[3..], ItemOpen, ItemClose);
        if |r2| >= 1 && r2[0] == Lit(ExperienceItemListEnd) then
          Some((ExperienceItem(ps[1].text, ps[3].text, ps[5].text, r1[1].text, tools, responsibilities), r2[1..]))
        else None
      else None
    else None
  }

  function ParseExperienceEntries(ps: seq<Piece>): (seq<ExperienceItem>, seq<Piece>)
    decreases |ps|
  {
    if |ps| > 0 && ps[0] == Lit(SubheadingOpen) then
      match ParseExperienceEntry(ps)
      case Some((x, rest)) =>
        var (xs, r2) := ParseExperienceEntries(rest);
        ([x] + xs, r2)
      case None => ([], ps)
    else ([], ps)
  }

  function ParseExperience(ps: seq<Piece>): Option<ExperienceResponse> {
    if |ps| >= 1 && ps[0] == Lit(ExperienceOpen) then
      var (xs, rest) := ParseExperienceEntries(ps[1..]);
      if rest == [Lit(SubHeadingListEnd)] then Some(ExperienceResponse(xs)) else None
    else None
  }

  lemma ParseExperienceEntryRoundTrip(x: ExperienceItem, rest: seq<Piece>)
    ensures ParseExperienceEntry(ExperienceEntry(x) + rest) == Some((x, rest))
  {
    var head := [Lit(SubheadingOpen), Val(x.company), Lit(FieldBreak), Val(x.duration), Lit(RowBreak), Val(x.role), Lit(RoleToolsGap)];
    var mid := [Lit(ToolsClose), Val(x.location), Lit(ExperienceRowEnd)];
    var items := Repeat(x.responsibilities, ItemOpen, ItemClose);
    var last := [Lit(ExperienceItemListEnd)] + rest;
    var afterTools := mid + (items + last);
    ExperienceEntryThenRest(x, rest);
    ParseLoopLast(x.tools, ListSeparator, afterTools);
    ParseRepeat(x.responsibilities, ItemOpen, ItemClose, last);
    ParseExperienceEntryAt(head + (LoopLast(x.tools, ListSeparator) + afterTools), x, rest);
  }

  /** An entry followed by more pieces, regrouped around the tool list. */
  lemma ExperienceEntryThenRest(x: ExperienceItem, rest: seq<Piece>)
    ensures var head := [Lit(SubheadingOpen), Val(x.company), Lit(FieldBreak), Val(x.duration), Lit(RowBreak), Val(x.role), Lit(RoleToolsGap)];
      var mid := [Lit(ToolsClose), Val(x.location), Lit(ExperienceRowEnd)];
      var items := Repeat(x.responsibilities, ItemOpen, ItemClose);
      ExperienceEntry(x) + rest == head + (LoopLast(x.tools, ListSeparator) + (mid + (items + ([Lit(ExperienceItemListEnd)] + rest))))
  {
    var head := [Lit(SubheadingOpen), Val(x.company), Lit(FieldBreak), Val(x.duration), Lit(RowBreak), Val(x.role), Lit(RoleToolsGap)];
    var mid := [Lit(ToolsClose), Val(x.location), Lit(ExperienceRowEnd)];
    var items := Repeat(x.responsibilities, ItemOpen, ItemClose);
    SeqAssoc5(head, LoopLast(x.tools, ListSeparator), mid, items, [Lit(ExperienceItemListEnd)], rest);
  }

  /** The parser reads an entry laid out as the renderer lays it out, once the lists parse. */
  lemma ParseExperienceEntryAt(ps: seq<Piece>, x: ExperienceItem, rest: seq<Piece>)
    requires var mid := [Lit(ToolsClose), Val(x.location), Lit(ExperienceRowEnd)];
      var items := Repeat(x.responsibilities, ItemOpen, ItemClose);
      var last := [Lit(ExperienceItemListEnd)] + rest;
      && ps == [Lit(SubheadingOpen), Val(x.company), Lit(FieldBreak), Val(x.duration), Lit(RowBreak), Val(x.role), Lit(RoleToolsGap)]
         + (LoopLast(x.tools, ListSeparator) + (mid + (items + last)))
      && ParseSeparated(LoopLast(x.tools, ListSeparator) + (mid + (items + last)), ListSeparator) == (x.tools, mid + (items + last))
      && ParseRepeated(items + last, ItemOpen, ItemClose) == (x.responsibilities, last)
    ensures ParseExperienceEntry(ps) == Some((x, rest))
  {
    var mid := [Lit(ToolsClose), Val(x.location), Lit(ExperienceRowEnd)];
    var items := Repeat(x.responsibilities, ItemOpen, ItemClose);
    var last := [Lit(ExperienceItemListEnd)] + rest;
    assert ps[7..] == LoopLast(x.tools, ListSeparator) + (mid + (items + last));
    assert (mid + (items + last))[3..] == items + last;
    assert last[1..] == rest;
  }

  lemma ExperienceEntriesStart(xs: seq<ExperienceItem>, rest: seq<Piece>)
    requires xs != []
    ensures ExperienceEntries(xs) + rest == ExperienceEntry(xs[0]) + (ExperienceEntries(xs[1..]) + rest)
    ensures (ExperienceEntries(xs) + rest)[0] == Lit(SubheadingOpen)
  {
    ExperienceEntryStarts(xs[0]);
  }

  lemma ParseExperienceEntriesStep(ps: seq<Piece>, x: ExperienceItem, rest: seq<Piece>)
    requires |ps| > 0 && ps[0] == Lit(SubheadingOpen)
    requires ParseExperienceEntry(ps) == Some((x, rest))
    ensures ParseExperienceEntries(ps) == ([x] + ParseExperienceEntries(rest).0, ParseExperienceEntries(rest).1)
  {
  }

  /** Each experience entry opens one `\resumeSubheading`. */
  lemma ExperienceEntrySubheadings(x: ExperienceItem)
    ensures Occurrences(ExperienceEntry(x), Lit(SubheadingOpen)) == 1
  {
    var p := Lit(SubheadingOpen);
    var head := [Lit(SubheadingOpen), Val(x.company), Lit(FieldBreak), Val(x.duration), Lit(RowBreak), Val(x.role), Lit(RoleToolsGap)];
    var tools := LoopLast(x.tools, ListSeparator);
    var mid := [Lit(ToolsClose), Val(x.location), Lit(ExperienceRowEnd)];
    var items := Repeat(x.responsibilities, ItemOpen, ItemClose);
    var tail := [Lit(ExperienceItemListEnd)];
    OccurrencesOfFive(head, tools, mid, items, tail, p);
    OccurrencesOnlyFirst(head, p);
    OccurrencesLoopLastFrom(x.tools, 0, ListSeparator, p);
    OccurrencesAbsent(mid, p);
    OccurrencesRepeatOther(x.responsibilities, ItemOpen, ItemClose, p);
    OccurrencesAbsent(tail, p);
  }

  /** Each experience entry writes one `\resumeItem` per responsibility. */
  lemma ExperienceEntryItems(x: ExperienceItem)
    ensures Occurrences(ExperienceEntry(x), Lit(ItemOpen)) == |x.responsibilities|
  {
    var p := Lit(ItemOpen);
    var head := [Lit(SubheadingOpen), Val(x.company), Lit(FieldBreak), Val(x.duration), Lit(RowBreak), Val(x.role), Lit(RoleToolsGap)];
    var tools := LoopLast(x.tools, ListSeparator);
    var mid := [Lit(ToolsClose), Val(x.location), Lit(ExperienceRowEnd)];
    var items := Repeat(x.responsibilities, ItemOpen, ItemClose);
    var tail := [Lit(ExperienceItemListEnd)];
    OccurrencesOfFive(head, tools, mid, items, tail, p);
    OccurrencesAbsent(head, p);
    OccurrencesLoopLastFrom(x.tools, 0, ListSeparator, p);
    OccurrencesAbsent(mid, p);
    OccurrencesRepeat(x.responsibilities, ItemOpen, ItemClose);
    OccurrencesAbsent(tail, p);
  }

  /** One `\resumeSubheading` per experience, and none elsewhere in the list. */
  lemma {:induction false} ExperienceSubheadingCount(xs: seq<ExperienceItem>)
    ensures Occurrences(ExperienceEntries(xs), Lit(SubheadingOpen)) == |xs|
  {
    if xs != [] {
      ExperienceEntrySubheadings(xs[0]);
      OccurrencesAppend(ExperienceEntry(xs[0]), ExperienceEntries(xs[1..]), Lit(SubheadingOpen));
      ExperienceSubheadingCount(xs[1..]);
    }
  }

  lemma {:induction false} ParseExperienceEntriesRoundTrip(xs: seq<ExperienceItem>, rest: seq<Piece>)
    requires StopsBefore(rest, SubheadingOpen)
    ensures ParseExperienceEntries(ExperienceEntries(xs) + rest) == (xs, rest)
  {
    if xs == [] {
      assert ExperienceEntries(xs) + rest == rest;
    } else {
      var tail := ExperienceEntries(xs[1..]) + rest;
      ExperienceEntriesStart(xs, rest);
      ParseExperienceEntryRoundTrip(xs[0], tail);
      ParseExperienceEntriesStep(ExperienceEntry(xs[0]) + tail, xs[0], tail);
      ParseExperienceEntriesRoundTrip(xs[1..], rest);
      assert xs == [xs[0]] + xs[1..];
    }
  }

  /**
   * Rendering loses nothing: parsing the experience fragment gives back the
   * response, every tool and every responsibility in its place and order.
   */
  lemma ExperienceRoundTrip(r: ExperienceResponse)
    ensures ParseExperience(RenderExperience(r)) == Some(r)
  {
    var ps := RenderExperience(r);
    assert ps[1..] == ExperienceEntries(r.experiences) + [Lit(SubHeadingListEnd)];
    ParseExperienceEntriesRoundTrip(r.experiences, [Lit(SubHeadingListEnd)]);
  }

  // ---------------------------------------------------------------------
  // Projects (utils.py:85-98)
  // ---------------------------------------------------------------------

  const ProjectsOpen := "\n\\section{Projects}\n\\resumeSubHeadingListStart\n"
  const ProjectHeadingOpen := "\\resumeProjectHeading\n    {\\textbf{ "
  const TitleSkillsGap := " } $|$ \\emph{ "
  const ProjectSkillsClose := " }}    {}\n\\resumeItemListStart\n"
  const ProjectItemListEnd := "\\resumeItemListEnd\n"

  function ProjectEntry(p: ProjectItem): seq<Piece> {
    [Lit(ProjectHeadingOpen), Val(p.title), Lit(TitleSkillsGap)]
    + LoopLast(p.skills, ListSeparator)
    + [Lit(ProjectSkillsClose)]
    + Repeat(p.descriptions, ItemOpen, ItemClose)
    + [Lit(ProjectItemListEnd)]
  }

  lemma ProjectEntryStarts(p: ProjectItem)
    ensures |ProjectEntry(p)| > 0 && ProjectEntry(p)[0] == Lit(ProjectHeadingOpen)
  {
    var head := [Lit(ProjectHeadingOpen), Val(p.title), Lit(TitleSkillsGap)];
    assert ProjectEntry(p) == head + (ProjectEntry(p)[3..]);
  }

  function ProjectEntries(ps: seq<ProjectItem>): seq<Piece> {
    if ps == [] then [] else ProjectEntry(ps[0]) + ProjectEntries(ps[1..])
  }

  function RenderProjects(r: ProjectsResponse): seq<Piece> {
    [Lit(ProjectsOpen)] + ProjectEntries(r.projects) + [Lit(SubHeadingListEnd)]
  }

  function ParseProjectEntry(ps: seq<Piece>): (r: Option<(ProjectItem, seq<Piece>)>)
    ensures r.Some? ==> |r.value.1| < |ps|
  {
    if |ps| >= 3 && ps[0] == Lit(ProjectHeadingOpen) && ps[1].Val? && ps[2] == Lit(TitleSkillsGap) then
      var (skills, r1) := ParseSeparated(ps[3..], ListSeparator);
      if |r1| >= 1 && r1[0] == Lit(ProjectSkillsClose) then
        var (descriptions, r2) := ParseRepeated(r1[1..], ItemOpen, ItemClose);
        if |r2| >= 1 && r2[0] == Lit(ProjectItemListEnd) then
          Some((ProjectItem(ps[1].text, skills, descriptions), r2[1..]))
        else None
      else None
    else None
  }

  function ParseProjectEntries(ps: seq<Piece>): (seq<ProjectItem>, seq<Piece>)
    decreases |ps|
  {
    if |ps| > 0 && ps[0] == Lit(ProjectHeadingOpen) then
      match ParseProjectEntry(ps)
      case Some((p, rest)) =>
        var (more, r2) := ParseProjectEntries(rest);
        ([p] + more, r2)
      case None => ([], ps)
    else ([], ps)
  }

  function ParseProjects(ps: seq<Piece>): Option<ProjectsResponse> {
    if |ps| >= 1 && ps[0] == Lit(ProjectsOpen) then
      var (projects, rest) := ParseProjectEntries(ps[1..]);
      if rest == [Lit(SubHeadingListEnd)] then Some(ProjectsResponse(projects)) else None
    else None
  }

  lemma ParseProjectEntryRoundTrip(p: ProjectItem, rest: seq<Piece>)
    ensures ParseProjectEntry(ProjectEntry(p) + rest) == Some((p, rest))
  {
    var head := [Lit(ProjectHeadingOpen), Val(p.title), Lit(TitleSkillsGap)];
    var items := Repeat(p.descriptions, ItemOpen, ItemClose);
    var last := [Lit(ProjectItemListEnd)] + rest;
    var afterSkills := [Lit(ProjectSkillsClose)] + (items + last);
    SeqAssoc5(head, LoopLast(p.skills, ListSeparator), [Lit(ProjectSkillsClose)], items, [Lit(ProjectItemListEnd)], rest);
    ParseLoopLast(p.skills, ListSeparator, afterSkills);
    ParseRepeat(p.descriptions, ItemOpen, ItemClose, last);
    ParseProjectEntryAt(head + (LoopLast(p.skills, ListSeparator) + afterSkills), p, rest);
  }

  /** The parser reads a project laid out as the renderer lays it out, once the lists parse. */
  lemma ParseProjectEntryAt(ps: seq<Piece>, p: ProjectItem, rest: seq<Piece>)
    requires var items := Repeat(p.descriptions, ItemOpen, ItemClose);
      var last := [Lit(ProjectItemListEnd)] + rest;
      var afterSkills := [Lit(ProjectSkillsClose)] + (items + last);
      && ps == [Lit(ProjectHeadingOpen), Val(p.title), Lit(TitleSkillsGap)] + (LoopLast(p.skills, ListSeparator) + afterSkills)
      && ParseSeparated(LoopLast(p.skills, ListSeparator) + afterSkills, ListSeparator) == (p.skills, afterSkills)
      && ParseRepeated(items + last, ItemOpen, ItemClose) == (p.descriptions, last)
    ensures ParseProjectEntry(ps) == Some((p, rest))
  {
    var items := Repeat(p.descriptions, ItemOpen, ItemClose);
    var last := [Lit(ProjectItemListEnd)] + rest;
    var afterSkills := [Lit(ProjectSkillsClose)] + (items + last);
    assert ps[3..] == LoopLast(p.skills, ListSeparator) + afterSkills;
    assert afterSkills[1..] == items + last;
    assert last[1..] == rest;
  }

  lemma ProjectEntriesStart(ps: seq<ProjectItem>, rest: seq<Piece>)
    requires ps != []
    ensures ProjectEntries(ps) + rest == ProjectEntry(ps[0]) + (ProjectEntries(ps[1..]) + rest)
    ensures (ProjectEntries(ps) + rest)[0] == Lit(ProjectHeadingOpen)
  {
    ProjectEntryStarts(ps[0]);
  }

  lemma ParseProjectEntriesStep(ps: seq<Piece>, p: ProjectItem, rest: seq<Piece>)
    requires |ps| > 0 && ps[0] == Lit(ProjectHeadingOpen)
    requires ParseProjectEntry(ps) == Some((p, rest))
    ensures ParseProjectEntries(ps) == ([p] + ParseProjectEntries(rest).0, ParseProjectEntries(rest).1)
  {
  }

  /** Each project: one heading, one `\resumeItem` per description. */
  lemma ProjectEntryCounts(p: ProjectItem)
    ensures Occurrences(ProjectEntry(p), Lit(ProjectHeadingOpen)) == 1
    ensures Occurrences(ProjectEntry(p), Lit(ItemOpen)) == |p.descriptions|
  {
    var head := [Lit(ProjectHeadingOpen), Val(p.title), Lit(TitleSkillsGap)];
    var skills := LoopLast(p.skills, ListSeparator);
    var items := Repeat(p.descriptions, ItemOpen, ItemClose);
    ProjectEntryHeadings(p, head, skills, items);
    ProjectEntryItems(p, head, skills, items);
  }

  lemma ProjectEntryHeadings(p: ProjectItem, head: seq<Piece>, skills: seq<Piece>, items: seq<Piece>)
    requires head == [Lit(ProjectHeadingOpen), Val(p.title), Lit(TitleSkillsGap)]
    requires skills == LoopLast(p.skills, ListSeparator) && items == Repeat(p.descriptions, ItemOpen, ItemClose)
    ensures Occurrences(ProjectEntry(p), Lit(ProjectHeadingOpen)) == 1
  {
    var q := Lit(ProjectHeadingOpen);
    OccurrencesOfFive(head, skills, [Lit(ProjectSkillsClose)], items, [Lit(ProjectItemListEnd)], q);
    OccurrencesOnlyFirst(head, q);
    OccurrencesLoopLastFrom(p.skills, 0, ListSeparator, q);
    OccurrencesAbsent([Lit(ProjectSkillsClose)], q);
    OccurrencesRepeatOther(p.descriptions, ItemOpen, ItemClose, q);
    OccurrencesAbsent([Lit(ProjectItemListEnd)], q);
  }

  lemma ProjectEntryItems(p: ProjectItem, head: seq<Piece>, skills: seq<Piece>, items: seq<Piece>)
    requires head == [Lit(ProjectHeadingOpen), Val(p.title), Lit(TitleSkillsGap)]
    requires skills == LoopLast(p.skills, ListSeparator) && items == Repeat(p.descriptions, ItemOpen, ItemClose)
    ensures Occurrences(ProjectEntry(p), Lit(ItemOpen)) == |p.descriptions|
  {
    var q := Lit(ItemOpen);
    OccurrencesOfFive(head, skills, [Lit(ProjectSkillsClose)], items, [Lit(ProjectItemListEnd)], q);
    OccurrencesAbsent(head, q);
    OccurrencesLoopLastFrom(p.skills, 0, ListSeparator, q);
    OccurrencesAbsent([Lit(ProjectSkillsClose)], q);
    OccurrencesRepeat(p.descriptions, ItemOpen, ItemClose);
    OccurrencesAbsent([Lit(ProjectItemListEnd)], q);
  }

  /** One project heading per project. */
  lemma {:induction false} ProjectHeadingCount(ps: seq<ProjectItem>)
    ensures Occurrences(ProjectEntries(ps), Lit(ProjectHeadingOpen)) == |ps|
  {
    if ps != [] {
      ProjectEntryCounts(ps[0]);
      OccurrencesAppend(ProjectEntry(ps[0]), ProjectEntries(ps[1..]), Lit(ProjectHeadingOpen));
      ProjectHeadingCount(ps[1..]);
    }
  }

  lemma {:induction false} ParseProjectEntriesRoundTrip(projects: seq<ProjectItem>, rest: seq<Piece>)
    requires StopsBefore(rest, ProjectHeadingOpen)
    ensures ParseProjectEntries(ProjectEntries(projects) + rest) == (projects, rest)
  {
    if projects == [] {
      assert ProjectEntries(projects) + rest == rest;
    } else {
      var tail := ProjectEntries(projects[1..]) + rest;
      ProjectEntriesStart(projects, rest);
      ParseProjectEntryRoundTrip(projects[0], tail);
      ParseProjectEntriesStep(ProjectEntry(projects[0]) + tail, projects[0], tail);
      ParseProjectEntriesRoundTrip(projects[1..], rest);
      assert projects == [projects[0]] + projects[1..];
    }
  }

  /** Rendering loses nothing: parsing the projects fragment gives back the response. */
  lemma ProjectsRoundTrip(r: ProjectsResponse)
    ensures ParseProjects(RenderProjects(r)) == Some(r)
  {
    var ps := RenderProjects(r);
    assert ps[1..] == ProjectEntries(r.projects) + [Lit(SubHeadingListEnd)];
    ParseProjectEntriesRoundTrip(r.projects, [Lit(SubHeadingListEnd)]);
  }

  // ---------------------------------------------------------------------
  // Skills (utils.py:119-130)
  // ---------------------------------------------------------------------

  const SkillsOpen := "\n%-----------PROGRAMMING SKILLS-----------%\n\\section{Technical Skills}\n    \\begin{itemize}[leftmargin=0.15in, label={}]\n    \\small{\n    \\item{\n"
  const CategoryOpen := "        \\textbf{ "
  const CategoryItemsGap := " }:{: "
  const CategoryLineEnd := " } \\\\\n"
  const SkillsClose := "    }}\n    \\end{itemize}\n"

  /** One category line; `skill.items|join(', ')` in its loop.last form, which gives the same text. */
  function SkillLine(s: SkillItem): seq<Piece> {
    [Lit(CategoryOpen), Val(s.category), Lit(CategoryItemsGap)] + LoopLast(s.items, ListSeparator) + [Lit(CategoryLineEnd)]
  }

  lemma SkillLineStarts(s: SkillItem)
    ensures |SkillLine(s)| > 0 && SkillLine(s)[0] == Lit(CategoryOpen)
  {
    var head := [Lit(CategoryOpen), Val(s.category), Lit(CategoryItemsGap)];
    assert SkillLine(s) == head + (SkillLine(s)[3..]);
  }

  function SkillLines(ss: seq<SkillItem>): seq<Piece> {
    if ss == [] then [] else SkillLine(ss[0]) + SkillLines(ss[1..])
  }

  function RenderSkills(r: SkillsResponse): seq<Piece> {
    [Lit(SkillsOpen)] + SkillLines(r.skills) + [Lit(SkillsClose)]
  }

  function ParseSkillLine(ps: seq<Piece>): (r: Option<(SkillItem, seq<Piece>)>)
    ensures r.Some? ==> |r.value.1| < |ps|
  {
    if |ps| >= 3 && ps[0] == Lit(CategoryOpen) && ps[1].Val? && ps[2] == Lit(CategoryItemsGap) then
      var (items, r1) := ParseSeparated(ps[3..], ListSeparator);
      if |r1| >= 1 && r1[0] == Lit(CategoryLineEnd) then Some((SkillItem(ps[1].text, items), r1[1..])) else None
    else None
  }

  function ParseSkillLines(ps: seq<Piece>): (seq<SkillItem>, seq<Piece>)
    decreases |ps|
  {
    if |ps| > 0 && ps[0] == Lit(CategoryOpen) then
      match ParseSkillLine(ps)
      case Some((s, rest)) =>
        var (more, r2) := ParseSkillLines(rest);
        ([s] + more, r2)
      case None => ([], ps)
    else ([], ps)
  }

  function ParseSkills(ps: seq<Piece>): Option<SkillsResponse> {
    if |ps| >= 1 && ps[0] == Lit(SkillsOpen) then
      var (skills, rest) := ParseSkillLines(ps[1..]);
      if rest == [Lit(SkillsClose)] then Some(SkillsResponse(skills)) else None
    else None
  }

  lemma ParseSkillLineRoundTrip(s: SkillItem, rest: seq<Piece>)
    ensures ParseSkillLine(SkillLine(s) + rest) == Some((s, rest))
  {
    var last := [Lit(CategoryLineEnd)] + rest;
    var ps := SkillLine(s) + rest;
    assert ps == [Lit(CategoryOpen), Val(s.category), Lit(CategoryItemsGap)] + (LoopLast(s.items, ListSeparator) + last);
    assert ps[3..] == LoopLast(s.items, ListSeparator) + last;
    ParseLoopLast(s.items, ListSeparator, last);
    assert last[1..] == rest;
  }

  lemma SkillLinesStart(ss: seq<SkillItem>, rest: seq<Piece>)
    requires ss != []
    ensures SkillLines(ss) + rest == SkillLine(ss[0]) + (SkillLines(ss[1..]) + rest)
    ensures (SkillLines(ss) + rest)[0] == Lit(CategoryOpen)
  {
    SkillLineStarts(ss[0]);
  }

  lemma ParseSkillLinesStep(ps: seq<Piece>, s: SkillItem, rest: seq<Piece>)
    requires |ps| > 0 && ps[0] == Lit(CategoryOpen)
    requires ParseSkillLine(ps) == Some((s, rest))
    ensures ParseSkillLines(ps) == ([s] + ParseSkillLines(rest).0, ParseSkillLines(rest).1)
  {
  }

  lemma SkillLineCategories(s: SkillItem)
    ensures Occurrences(SkillLine(s), Lit(CategoryOpen)) == 1
  {
    OccurrencesLoopLastFrom(s.items, 0, ListSeparator, Lit(CategoryOpen));
    OccurrencesIsMultiplicity(LoopLast(s.items, ListSeparator), Lit(CategoryOpen));
    OccurrencesIsMultiplicity(SkillLine(s), Lit(CategoryOpen));
  }

  /** One category line per skill item in the whole skills fragment. */
  lemma {:induction false} SkillLineCount(ss: seq<SkillItem>)
    ensures Occurrences(SkillLines(ss), Lit(CategoryOpen)) == |ss|
  {
    if ss != [] {
      SkillLineCategories(ss[0]);
      OccurrencesAppend(SkillLine(ss[0]), SkillLines(ss[1..]), Lit(CategoryOpen));
      SkillLineCount(ss[1..]);
    }
  }

  lemma SkillsCategoryCount(r: SkillsResponse)
    ensures Occurrences(RenderSkills(r), Lit(CategoryOpen)) == |r.skills|
  {
    SkillLineCount(r.skills);
    OccurrencesAppend([Lit(SkillsOpen)], SkillLines(r.skills), Lit(CategoryOpen));
    OccurrencesAppend([Lit(SkillsOpen)] + SkillLines(r.skills), [Lit(SkillsClose)], Lit(CategoryOpen));
  }

  lemma {:induction false} ParseSkillLinesRoundTrip(ss: seq<SkillItem>, rest: seq<Piece>)
    requires StopsBefore(rest, CategoryOpen)
    ensures ParseSkillLines(SkillLines(ss) + rest) == (ss, rest)
  {
    if ss == [] {
      assert SkillLines(ss) + rest == rest;
    } else {
      var tail := SkillLines(ss[1..]) + rest;
      SkillLinesStart(ss, rest);
      ParseSkillLineRoundTrip(ss[0], tail);
      ParseSkillLinesStep(SkillLine(ss[0]) + tail, ss[0], tail);
      ParseSkillLinesRoundTrip(ss[1..], rest);
      assert ss == [ss[0]] + ss[1..];
    }
  }

  /** Rendering loses nothing: parsing the skills fragment gives back the response. */
  lemma SkillsRoundTrip(r: SkillsResponse)
    ensures ParseSkills(RenderSkills(r)) == Some(r)
  {
    var ps := RenderSkills(r);
    assert ps[1..] == SkillLines(r.skills) + [Lit(SkillsClose)];
    ParseSkillLinesRoundTrip(r.skills, [Lit(SkillsClose)]);
  }

  /** An empty skills list still renders the section, with no category line. */
  lemma EmptySkillsRenderHeaderOnly()
    ensures RenderSkills(SkillsResponse([])) == [Lit(SkillsOpen), Lit(SkillsClose)]
    ensures Lit(CategoryOpen) !in RenderSkills(SkillsResponse([]))
  {
  }

  // ---------------------------------------------------------------------
  // Heading (utils.py:190-202)
  // ---------------------------------------------------------------------

  const HeadingOpen := "\n%----------HEADING----------%\n\\begin{center}\n    \\textbf{\\Large \\scshape "
  const NameEnd := " } \\\\ \\vspace{1pt}\n\n    \\href{tel:"
  const PhoneLinkEnd := "}{\\seticon{faPhone}\n    \\underline{ "
  const PhoneEnd := " }} \\quad\n    \\href{mailto:"
  const EmailLinkEnd := "}{\\seticon{faEnvelope} \\underline{ "
  const EmailEnd := " }} \\quad\n    \\href{https://www.linkedin.com/in/"
  const LinkedinLinkEnd := "}{\\seticon{faLinkedin} \\underline{in/"
  const LinkedinEnd := "}} \\quad\n    \\href{https://github.com/"
  const GithubLinkEnd := "}{\\seticon{faGithub} \\underline{ "
  const HeadingClose := " }}\n\n\\end{center}\n    "

  /** Phone, email and the two handles each appear twice: as a link target and as shown text. */
  function RenderHeading(h: HeadingData): seq<Piece> {
    [Lit(HeadingOpen), Val(h.name), Lit(NameEnd),
     Val(h.phone), Lit(PhoneLinkEnd), Val(h.phone), Lit(PhoneEnd),
     Val(h.email), Lit(EmailLinkEnd), Val(h.email), Lit(EmailEnd),
     Val(h.linkedin), Lit(LinkedinLinkEnd), Val(h.linkedin), Lit(LinkedinEnd),
     Val(h.github), Lit(GithubLinkEnd), Val(h.github), Lit(HeadingClose)]
  }

  /** Reads the heading back, accepting it only when each link target matches its shown text. */
  function ParseHeading(ps: seq<Piece>): Option<HeadingData> {
    if |ps| == 19 && ps[0] == Lit(HeadingOpen) && ps[2] == Lit(NameEnd) && ps[4] == Lit(PhoneLinkEnd) && ps[6] == Lit(PhoneEnd)
       && ps[8] == Lit(EmailLinkEnd) && ps[10] == Lit(EmailEnd) && ps[12] == Lit(LinkedinLinkEnd) && ps[14] == Lit(LinkedinEnd)
       && ps[16] == Lit(GithubLinkEnd) && ps[18] == Lit(HeadingClose)
       && ps[1].Val? && ps[3].Val? && ps[5] == ps[3] && ps[7].Val? && ps[9] == ps[7]
       && ps[11].Val? && ps[13] == ps[11] && ps[15].Val? && ps[17] == ps[15] then
      Some(HeadingData(ps[1].text, ps[3].text, ps[7].text, ps[11].text, ps[15].text))
    else None
  }

  /** Rendering the heading loses nothing, and every link agrees with the text shown for it. */
  lemma HeadingFragmentRoundTrip(h: HeadingData)
    ensures ParseHeading(RenderHeading(h)) == Some(h)
  {
  }

  /** The rendered heading shows the name, the phone number and the e-mail address. */
  lemma HeadingShowsContacts(h: HeadingData)
    ensures Contains(Flatten(RenderHeading(h)), h.name)
    ensures Contains(Flatten(RenderHeading(h)), h.phone)
    ensures Contains(Flatten(RenderHeading(h)), h.email)
  {
    HeadingShowsName(h);
    HeadingShowsPhone(h);
    HeadingShowsEmail(h);
  }

  lemma HeadingShowsName(h: HeadingData)
    ensures Contains(Flatten(RenderHeading(h)), h.name)
  {
    var ps := RenderHeading(h);
    assert ps[1] == Val(h.name);
    ValueAppearsInText(ps, 1);
  }

  lemma HeadingShowsPhone(h: HeadingData)
    ensures Contains(Flatten(RenderHeading(h)), h.phone)
  {
    var ps := RenderHeading(h);
    assert ps[3] == Val(h.phone);
    ValueAppearsInText(ps, 3);
  }

  lemma HeadingShowsEmail(h: HeadingData)
    ensures Contains(Flatten(RenderHeading(h)), h.email)
  {
    var ps := RenderHeading(h);
    assert ps[7] == Val(h.email);
    ValueAppearsInText(ps, 7);
  }

  // ---------------------------------------------------------------------
  // Root document (utils.py:293-373)
  // ---------------------------------------------------------------------

  /** The first line of the fixed preamble; the package and layout lines after it are not reproduced. */
  const Preamble := "\n\\documentclass[letterpaper,10pt]{article}\n"
  const DocumentBegin := "\\begin{document}\n"
  const DocumentEnd := "\n\\end{document}\n"

  /**
   * The include commands of the root document, in order: the macro file first,
   * then the five sections in document order. Each names `path` followed by
   * this suffix; some suffixes carry ".tex" and some do not.
   */
  const IncludeCommands: seq<(string, string)> := [
    ("\\include", "/custom-commands"),
    ("\\input", "/src/heading"),
    ("\\input", "/src/education.tex"),
    ("\\input", "/src/skills.tex"),
    ("\\input", "/src/experience"),
    ("\\input", "/src/projects")]

  function IncludeLines(path: string, commands: seq<(string, string)>): seq<Piece> {
    if commands == [] then []
    else [Lit(commands[0].0 + "{"), Val(path), Lit(commands[0].1 + "}\n")] + IncludeLines(path, commands[1..])
  }

  function RootDocument(path: string): seq<Piece> {
    [Lit(Preamble), Lit(DocumentBegin)] + IncludeLines(path, IncludeCommands) + [Lit(DocumentEnd)]
  }

  /** The file an include names once TeX adds the ".tex" it assumes when the name has no extension. */
  function TexFile(name: string): string {
    if |name| >= 4 && name[|name| - 4..] == ".tex" then name else name + ".tex"
  }

  /** Reads the included names back: each command's argument is `path` and its suffix. */
  function IncludedNames(ps: seq<Piece>, commands: seq<(string, string)>): seq<string>
    decreases commands
  {
    if commands != [] && |ps| >= 3 && ps[0] == Lit(commands[0].0 + "{") && ps[1].Val? && ps[2] == Lit(commands[0].1 + "}\n") then
      [ps[1].text + commands[0].1] + IncludedNames(ps[3..], commands[1..])
    else []
  }

  lemma {:induction false} IncludedNamesOfLines(path: string, commands: seq<(string, string)>, rest: seq<Piece>)
    ensures var names := IncludedNames(IncludeLines(path, commands) + rest, commands);
      |names| == |commands| && forall k :: 0 <= k < |commands| ==> names[k] == path + commands[k].1
  {
    if commands != [] {
      var ps := IncludeLines(path, commands) + rest;
      assert ps[3..] == IncludeLines(path, commands[1..]) + rest;
      IncludedNamesOfLines(path, commands[1..], rest);
    }
  }

  /**
   * The root document includes, in order, custom-commands, heading, education,
   * skills, experience and projects, each under `path`.
   */
  lemma RootDocumentIncludes(path: string)
    ensures IncludedNames(RootDocument(path)[2..], IncludeCommands) == [
      path + "/custom-commands", path + "/src/heading", path + "/src/education.tex",
      path + "/src/skills.tex", path + "/src/experience", path + "/src/projects"]
  {
    var ps := RootDocument(path);
    assert ps[2..] == IncludeLines(path, IncludeCommands) + [Lit(DocumentEnd)];
    IncludedNamesOfLines(path, IncludeCommands, [Lit(DocumentEnd)]);
  }
}
