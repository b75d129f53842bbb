/** The text layout of the final resume document. A document is a sequence
    of paragraphs; a paragraph is a sequence of runs (plain text or a
    hyperlink) plus the space left after it, in points. Fonts, margins, tab
    stops, borders and the file format are not modelled. */
module DocxGenerator {
  import opened ResumeTypes

  datatype Run = Text(text: string) | Link(url: string, text: string)

  datatype Paragraph = Paragraph(runs: seq<Run>, spaceAfter: nat)

  /** The `user_info` dictionary: all five keys are always present, each
      value may be None. */
  datatype UserInfo = UserInfo(
    fullName: Option<string>,
    phone: Option<string>,
    email: Option<string>,
    linkedin: Option<string>,
    github: Option<string>)

  // -------------------------------------------------------------------
  // Character classes and case mapping
  // -------------------------------------------------------------------

  /** Python's `\s` and `str.strip()` whitespace below U+0080: space, tab,
      line feed, vertical tab, form feed, carriage return and the four
      separators U+001C to U+001F. */
  predicate IsWhitespace(c: char) {
    || c == ' ' || c == '\t' || c == '\n' || c == '\r' || c == '\U{000B}' || c == '\U{000C}'
    || c == '\U{001C}' || c == '\U{001D}' || c == '\U{001E}' || c == '\U{001F}'
  }

  /** The character class `[\s•\-\*\–\—\·\●\▪\○\▶\›\t]` of the bullet regex. */
  predicate IsBulletMarker(c: char) {
    || IsWhitespace(c)
    || c == '\U{2022}' || c == '-' || c == '*' || c == '\U{2013}' || c == '\U{2014}'
    || c == '\U{00B7}' || c == '\U{25CF}' || c == '\U{25AA}' || c == '\U{25CB}'
    || c == '\U{25B6}' || c == '\U{203A}'
  }

  /** `str.upper()`, restricted to the ASCII letters. */
  function UpperChar(c: char): char {
    if 'a' <= c <= 'z' then (c as int - 32) as char else c
  }

  function Upper(s: string): string {
    seq(|s|, i requires 0 <= i < |s| => UpperChar(s[i]))
  }

  /** Removes the longest prefix whose characters all satisfy `strip`. */
  function LStrip(s: string, strip: char -> bool): string
    decreases |s|
  {
    if s != [] && strip(s[0]) then LStrip(s[1..], strip) else s
  }

  /** Removes the longest suffix whose characters all satisfy `strip`. */
  function RStrip(s: string, strip: char -> bool): string
    decreases |s|
  {
    if s != [] && strip(s[|s| - 1]) then RStrip(s[..|s| - 1], strip) else s
  }

  /** `str.strip()` */
  function Strip(s: string): string {
    RStrip(LStrip(s, IsWhitespace), IsWhitespace)
  }

  /** LStrip keeps a suffix, cuts only characters in the class, and stops at
      the first character outside it. */
  lemma {:induction false} LStripCuts(s: string, strip: char -> bool)
    ensures var r := LStrip(s, strip);
      && |r| <= |s| && r == s[|s| - |r|..]
      && (forall i :: 0 <= i < |s| - |r| ==> strip(s[i]))
      && (r == [] || !strip(r[0]))
    decreases |s|
  {
    if s != [] && strip(s[0]) {
      LStripCuts(s[1..], strip);
    }
  }

  /** RStrip keeps a prefix, cuts only characters in the class, and stops at
      the last character outside it. */
  lemma {:induction false} RStripCuts(s: string, strip: char -> bool)
    ensures var r := RStrip(s, strip);
      && |r| <= |s| && r == s[..|r|]
      && (forall i :: |r| <= i < |s| ==> strip(s[i]))
      && (r == [] || !strip(r[|r| - 1]))
    decreases |s|
  {
    if s != [] && strip(s[|s| - 1]) {
      RStripCuts(s[..|s| - 1], strip);
    }
  }

  lemma LStripStops(s: string, strip: char -> bool)
    requires s == [] || !strip(s[0])
    ensures LStrip(s, strip) == s
  {
  }

  lemma RStripStops(s: string, strip: char -> bool)
    requires s == [] || !strip(s[|s| - 1])
    ensures RStrip(s, strip) == s
  {
  }

  // -------------------------------------------------------------------
  // normalize_bullet
  // -------------------------------------------------------------------

  const BulletPrefix: string := "\U{2022} "

  /** What remains of a bullet's text once leading markers and surrounding
      whitespace are cut off. */
  function BulletCore(text: string): string {
    Strip(LStrip(text, IsBulletMarker))
  }

  /** The core is the input with a leading run of marker characters and a
      trailing run of whitespace cut off; it neither starts with a marker
      nor ends with whitespace. */
  lemma BulletCoreCuts(text: string)
    ensures exists i, j ::
      (&& 0 <= i <= j <= |text| && BulletCore(text) == text[i..j]
       && (forall k :: 0 <= k < i ==> IsBulletMarker(text[k]))
       && (forall k :: j <= k < |text| ==> IsWhitespace(text[k])))
    ensures var c := BulletCore(text);
      c == [] || (!IsBulletMarker(c[0]) && !IsWhitespace(c[|c| - 1]))
  {
    var dropped := LStrip(text, IsBulletMarker);
    LStripCuts(text, IsBulletMarker);
    var i := |text| - |dropped|;
    LStripStops(dropped, IsWhitespace);
    var clean := RStrip(dropped, IsWhitespace);
    RStripCuts(dropped, IsWhitespace);
    assert clean == BulletCore(text);
    var j := i + |clean|;
    assert clean == text[i..j];
    forall k | j <= k < |text| ensures IsWhitespace(text[k]) {
      assert text[k] == dropped[k - i];
    }
    if clean != [] {
      assert clean[0] == dropped[0];
    }
  }

  /** Strips every leading marker or whitespace character, strips the
      result, and puts a single "• " in front. Empty input (the model's
      stand-in for both None and "") gives the bare prefix. */
  function NormalizeBullet(text: string): (r: string)
    ensures text == "" ==> r == BulletPrefix
    ensures |r| >= 2 && r[..2] == BulletPrefix
    ensures |r| > 2 ==> !IsBulletMarker(r[2]) && !IsWhitespace(r[|r| - 1])
  {
    if text == "" then BulletPrefix
    else
      BulletCoreCuts(text);
      BulletPrefix + BulletCore(text)
  }

  lemma LStripAllMarked(a: string, b: string, strip: char -> bool)
    requires forall k :: 0 <= k < |a| ==> strip(a[k])
    ensures LStrip(a + b, strip) == LStrip(b, strip)
    decreases |a|
  {
    if a == [] {
      assert a + b == b;
    } else {
      assert (a + b)[0] == a[0] && (a + b)[1..] == a[1..] + b;
      LStripAllMarked(a[1..], b, strip);
    }
  }

  /** normalize_bullet is idempotent: a normalised bullet is left as it is. */
  lemma {:induction false} NormalizeBulletIdempotent(text: string)
    ensures NormalizeBullet(NormalizeBullet(text)) == NormalizeBullet(text)
  {
    var r := NormalizeBullet(text);
    var clean := r[2..];
    assert r == BulletPrefix + clean;
    assert clean == [] || (!IsBulletMarker(clean[0]) && !IsWhitespace(clean[|clean| - 1]));
    LStripAllMarked(BulletPrefix, clean, IsBulletMarker);
    LStripStops(clean, IsBulletMarker);
    LStripStops(clean, IsWhitespace);
    RStripStops(clean, IsWhitespace);
    assert BulletCore(r) == clean;
  }

  /** A bullet text that neither starts with a marker nor ends with
      whitespace only gains the "• " prefix: nothing of it is lost. */
  lemma NormalizeBulletKeepsClean(text: string)
    requires text != [] && !IsBulletMarker(text[0]) && !IsWhitespace(text[|text| - 1])
    ensures NormalizeBullet(text) == BulletPrefix + text
  {
    LStripStops(text, IsBulletMarker);
    LStripStops(text, IsWhitespace);
    RStripStops(text, IsWhitespace);
  }

  // -------------------------------------------------------------------
  // Header block: name line and contact line
  // -------------------------------------------------------------------

  /** Python truthiness of `user_info.get(key)`: present and non-empty. */
  predicate Present(field: Option<string>) {
    field.Some? && field.value != ""
  }

  const Separator: Run := Text(" | ")

  /** The contact items in their fixed order, each only when its field is
      present. */
  function ContactItems(info: UserInfo): seq<Run> {
    (if Present(info.phone) then [Text(info.phone.value)] else [])
    + (if Present(info.email) then [Text(info.email.value)] else [])
    + (if Present(info.linkedin) then [Link(info.linkedin.value, "LinkedIn")] else [])
    + (if Present(info.github) then [Link(info.github.value, "GitHub")] else [])
  }

  /** Items with a separator between each consecutive pair. */
  function Separated(items: seq<Run>): seq<Run>
  {
    if |items| <= 1 then items else [items[0], Separator] + Separated(items[1..])
  }

  function ContactRuns(info: UserInfo): seq<Run> {
    Separated(ContactItems(info))
  }

  lemma {:induction false} SeparatedLength(items: seq<Run>)
    ensures |Separated(items)| == if items == [] then 0 else 2 * |items| - 1
  {
    if |items| > 1 {
      SeparatedLength(items[1..]);
    }
  }

  lemma {:induction false} SeparatedAt(items: seq<Run>, k: nat)
    requires k < |items|
    ensures |Separated(items)| == 2 * |items| - 1
    ensures Separated(items)[2 * k] == items[k]
    ensures k < |items| - 1 ==> Separated(items)[2 * k + 1] == Separator
  {
    SeparatedLength(items);
    if k > 0 {
      SeparatedAt(items[1..], k - 1);
      assert Separated(items) == [items[0], Separator] + Separated(items[1..]);
    }
  }

  /** The separated line: items at the even positions, in order, and a
      separator at every odd position; so no separator leads or trails. */
  lemma SeparatedShape(items: seq<Run>)
    ensures |Separated(items)| == if items == [] then 0 else 2 * |items| - 1
    ensures forall k :: 0 <= k < |items| ==> Separated(items)[2 * k] == items[k]
    ensures forall k :: 0 <= k < |items| - 1 ==> Separated(items)[2 * k + 1] == Separator
  {
    SeparatedLength(items);
    forall k | 0 <= k < |items| ensures Separated(items)[2 * k] == items[k] {
      SeparatedAt(items, k);
    }
    forall k | 0 <= k < |items| - 1 ensures Separated(items)[2 * k + 1] == Separator {
      SeparatedAt(items, k);
    }
  }

  /** Appending one item: a separator goes in front of it only when
      something was already there (the `parts_added` flag). */
  lemma {:induction false} SeparatedSnoc(items: seq<Run>, x: Run)
    ensures Separated(items + [x]) == Separated(items) + (if items == [] then [] else [Separator]) + [x]
    decreases |items|
  {
    if |items| == 1 {
      assert Separated(items + [x]) == [items[0], Separator] + Separated([x]);
    } else if |items| > 1 {
      assert (items + [x])[1..] == items[1..] + [x];
      SeparatedSnoc(items[1..], x);
    }
  }

  /** A run is on the separated line exactly when it is one of the items,
      or it is the separator and there are at least two items. */
  lemma {:induction false} SeparatedMembers(items: seq<Run>, x: Run)
    ensures x in Separated(items) <==> x in items || (|items| > 1 && x == Separator)
  {
    if |items| > 1 {
      SeparatedMembers(items[1..], x);
      assert Separated(items) == [items[0], Separator] + Separated(items[1..]);
      assert items == [items[0]] + items[1..];
    }
  }

  /** Each link appears on the contact line exactly when its field is
      present, pointing at that field's URL. */
  lemma ContactLinks(info: UserInfo, u: string)
    ensures Link(u, "LinkedIn") in ContactRuns(info) <==> Present(info.linkedin) && u == info.linkedin.value
    ensures Link(u, "GitHub") in ContactRuns(info) <==> Present(info.github) && u == info.github.value
  {
    SeparatedMembers(ContactItems(info), Link(u, "LinkedIn"));
    SeparatedMembers(ContactItems(info), Link(u, "GitHub"));
  }

  /** The phone number, when present, opens the contact line; the email
      address, when present, follows it after a separator, or opens the
      line when there is no phone number. */
  lemma ContactTexts(info: UserInfo)
    ensures Present(info.phone) || Present(info.email) ==> |ContactRuns(info)| >= 1
    ensures Present(info.phone) && Present(info.email) ==> |ContactRuns(info)| >= 3
    ensures Present(info.phone) ==> ContactRuns(info)[0] == Text(info.phone.value)
    ensures Present(info.email) ==>
      ContactRuns(info)[if Present(info.phone) then 2 else 0] == Text(info.email.value)
    ensures Present(info.phone) && Present(info.email) ==> ContactRuns(info)[1] == Separator
  {
    var items := ContactItems(info);
    SeparatedShape(items);
    assert Present(info.phone) ==> |items| >= 1;
    assert Present(info.phone) && Present(info.email) ==> |items| >= 2;
    if Present(info.phone) {
      assert items[0] == Text(info.phone.value);
    }
    if Present(info.email) {
      var k := if Present(info.phone) then 1 else 0;
      assert items[k] == Text(info.email.value);
    }
  }

  /** The contact line is empty exactly when no contact field is present,
      and it holds one item per present field. */
  lemma ContactLineCount(info: UserInfo)
    ensures var n := (if Present(info.phone) then 1 else 0) + (if Present(info.email) then 1 else 0)
                   + (if Present(info.linkedin) then 1 else 0) + (if Present(info.github) then 1 else 0);
      |ContactRuns(info)| == if n == 0 then 0 else 2 * n - 1
  {
    SeparatedShape(ContactItems(info));
  }

  /** The name line: the upper-cased full name, "" when there is none. */
  function NameLine(info: UserInfo): (r: string)
    ensures info.fullName.None? ==> r == ""
    ensures |r| == |info.fullName.GetOr("")|
    ensures forall i :: 0 <= i < |r| ==> r[i] == UpperChar(info.fullName.GetOr("")[i])
  {
    Upper(info.fullName.GetOr(""))
  }

  /** What `user_info.get("full_name", "").upper()` does with a dictionary
      that always holds the key: the default is never used, so a None value
      reaches `.upper()` and raises AttributeError. */
  datatype NameOutcome = Line(text: string) | AttributeError

  function NameLineAsWritten(info: UserInfo): NameOutcome {
    match info.fullName
    case Some(n) => Line(Upper(n))
    case None => AttributeError
  }

  /** The header line as written agrees with NameLine whenever a name is
      stored, and fails where NameLine gives "" (no stored name). */
  lemma NameLineAsWrittenFailsWithoutName(info: UserInfo)
    ensures info.fullName.Some? ==> NameLineAsWritten(info) == Line(NameLine(info))
    ensures info.fullName.None? ==> NameLineAsWritten(info) == AttributeError && NameLine(info) == ""
  {
  }

  function HeaderParagraphs(info: UserInfo): seq<Paragraph> {
    [Paragraph([Text(NameLine(info))], 0), Paragraph(ContactRuns(info), 0), Paragraph([], 0)]
  }

  // -------------------------------------------------------------------
  // Sections
  // -------------------------------------------------------------------

  function SectionHeading(text: string): Paragraph {
    Paragraph([Text(Upper(text))], 0)
  }

  function SummaryParagraph(summary: string): Paragraph {
    Paragraph([Text(summary)], 10)
  }

  /** "title, company", a tab, then the dates; a missing key reads as "". */
  function JobHeadingRuns(job: Job): seq<Run> {
    [Text(job.title.GetOr("") + ", " + job.company.GetOr("")), Text("\t"), Text(job.dates.GetOr(""))]
  }

  function BulletParagraph(bullet: string): Paragraph {
    Paragraph([Text(NormalizeBullet(bullet))], 0)
  }

  function BulletParagraphs(bullets: seq<string>): seq<Paragraph> {
    seq(|bullets|, k requires 0 <= k < |bullets| => BulletParagraph(bullets[k]))
  }

  /** The paragraph that closes a block gets 6pt after it. */
  function SpaceLast(ps: seq<Paragraph>): seq<Paragraph>
    requires ps != []
  {
    ps[|ps| - 1 := ps[|ps| - 1].(spaceAfter := 6)]
  }

  /** One job: its heading, then one paragraph per bullet. */
  function JobBlock(job: Job): seq<Paragraph> {
    SpaceLast([Paragraph(JobHeadingRuns(job), 0)] + BulletParagraphs(job.bullets.GetOr([])))
  }

  /** A job block has the heading first, the k-th normalised bullet at
      position k + 1, and 6pt after its last paragraph only: after the last
      bullet, or after the heading when there are no bullets. */
  lemma JobBlockShape(job: Job)
    ensures var b := job.bullets.GetOr([]);
      && |JobBlock(job)| == 1 + |b|
      && JobBlock(job)[0].runs == JobHeadingRuns(job)
      && (forall k :: 0 <= k < |b| ==> JobBlock(job)[k + 1].runs == [Text(NormalizeBullet(b[k]))])
      && (forall p :: 0 <= p < |b| ==> JobBlock(job)[p].spaceAfter == 0)
      && JobBlock(job)[|b|].spaceAfter == 6
  {
    var b := job.bullets.GetOr([]);
    var whole := [Paragraph(JobHeadingRuns(job), 0)] + BulletParagraphs(b);
    var block := JobBlock(job);
    assert block == SpaceLast(whole);
    assert |whole| == 1 + |b|;
    forall k | 0 <= k < |b| ensures block[k + 1].runs == [Text(NormalizeBullet(b[k]))] {
      assert whole[k + 1] == BulletParagraph(b[k]);
    }
    forall p | 0 <= p < |b| ensures block[p].spaceAfter == 0 {
      assert p == 0 || whole[p] == BulletParagraph(b[p - 1]);
    }
  }

  function ExperienceParagraphs(jobs: seq<Job>): seq<Paragraph> {
    if jobs == [] then [] else ExperienceParagraphs(jobs[..|jobs| - 1]) + JobBlock(jobs[|jobs| - 1])
  }

  /** Number of paragraphs a job list yields: one heading per job plus one
      per bullet. */
  function ExperienceLines(jobs: seq<Job>): nat {
    if jobs == [] then 0 else ExperienceLines(jobs[..|jobs| - 1]) + 1 + |jobs[|jobs| - 1].bullets.GetOr([])|
  }

  lemma {:induction false} ExperienceParagraphsCount(jobs: seq<Job>)
    ensures |ExperienceParagraphs(jobs)| == ExperienceLines(jobs)
  {
    if jobs != [] {
      ExperienceParagraphsCount(jobs[..|jobs| - 1]);
      JobBlockShape(jobs[|jobs| - 1]);
    }
  }

  function EducationParagraph(edu: Education): Paragraph {
    Paragraph([Text(edu.degree.GetOr("") + ", " + edu.institution.GetOr("")), Text("\t"), Text(edu.dates.GetOr(""))], 10)
  }

  function EducationParagraphs(edus: seq<Education>): seq<Paragraph> {
    seq(|edus|, i requires 0 <= i < |edus| => EducationParagraph(edus[i]))
  }

  /** `sep.join(xs)` */
  function Join(xs: seq<string>, sep: string): string {
    if xs == [] then "" else if |xs| == 1 then xs[0] else xs[0] + sep + Join(xs[1..], sep)
  }

  function SkillsParagraph(group: SkillGroup): Paragraph {
    Paragraph([Text(group.category + ": "), Text(Join(group.skills, ", "))], 0)
  }

  function SkillsParagraphs(groups: seq<SkillGroup>): seq<Paragraph> {
    seq(|groups|, i requires 0 <= i < |groups| => SkillsParagraph(groups[i]))
  }

  /** The whole document, top to bottom. */
  function Layout(sections: ResumeSections, info: UserInfo): seq<Paragraph> {
    HeaderParagraphs(info)
    + [SectionHeading("SUMMARY")] + [SummaryParagraph(sections.summary)]
    + [SectionHeading("EXPERIENCE")] + ExperienceParagraphs(sections.experience)
    + [SectionHeading("EDUCATION")] + EducationParagraphs(sections.education)
    + [SectionHeading("SKILLS")] + SkillsParagraphs(sections.skills)
  }

  /** Where each part lands in a document built as header, four headings
      and the bodies between them. */
  lemma PartsAt(hdr: seq<Paragraph>, h1: Paragraph, sum: Paragraph, h2: Paragraph, exp: seq<Paragraph>,
                h3: Paragraph, edu: seq<Paragraph>, h4: Paragraph, skl: seq<Paragraph>)
    requires |hdr| == 3
    ensures var doc := hdr + [h1] + [sum] + [h2] + exp + [h3] + edu + [h4] + skl;
      var e := |exp|;
      var d := |edu|;
      && |doc| == 8 + e + d + |skl|
      && doc[..3] == hdr && doc[3] == h1 && doc[4] == sum && doc[5] == h2
      && doc[6..6 + e] == exp && doc[6 + e] == h3
      && doc[7 + e..7 + e + d] == edu && doc[7 + e + d] == h4
      && doc[8 + e + d..] == skl
  {
    var doc := hdr + [h1] + [sum] + [h2] + exp + [h3] + edu + [h4] + skl;
    var e := |exp|;
    var d := |edu|;
    assert doc[6..6 + e] == exp by {
      forall k | 0 <= k < e ensures doc[6 + k] == exp[k] { }
    }
    assert doc[7 + e..7 + e + d] == edu by {
      forall k | 0 <= k < d ensures doc[7 + e + k] == edu[k] { }
    }
    assert doc[8 + e + d..] == skl by {
      forall k | 0 <= k < |skl| ensures doc[8 + e + d + k] == skl[k] { }
    }
  }

  /** The document is the three header paragraphs, then the SUMMARY,
      EXPERIENCE, EDUCATION and SKILLS sections in that order, each under
      its upper-case heading and followed by exactly its own paragraphs. */
  lemma LayoutSectionOrder(sections: ResumeSections, info: UserInfo)
    ensures var doc := Layout(sections, info);
      var e := |ExperienceParagraphs(sections.experience)|;
      var d := |sections.education|;
      && |doc| == 8 + e + d + |sections.skills|
      && doc[..3] == HeaderParagraphs(info)
      && doc[3] == Paragraph([Text("SUMMARY")], 0)
      && doc[4] == SummaryParagraph(sections.summary)
      && doc[5] == Paragraph([Text("EXPERIENCE")], 0)
      && doc[6..6 + e] == ExperienceParagraphs(sections.experience)
      && doc[6 + e] == Paragraph([Text("EDUCATION")], 0)
      && doc[7 + e..7 + e + d] == EducationParagraphs(sections.education)
      && doc[7 + e + d] == Paragraph([Text("SKILLS")], 0)
      && doc[8 + e + d..] == SkillsParagraphs(sections.skills)
  {
    assert Upper("SUMMARY") == "SUMMARY";
    assert Upper("EXPERIENCE") == "EXPERIENCE";
    assert Upper("EDUCATION") == "EDUCATION";
    assert Upper("SKILLS") == "SKILLS";
    PartsAt(HeaderParagraphs(info), SectionHeading("SUMMARY"), SummaryParagraph(sections.summary),
            SectionHeading("EXPERIENCE"), ExperienceParagraphs(sections.experience),
            SectionHeading("EDUCATION"), EducationParagraphs(sections.education),
            SectionHeading("SKILLS"), SkillsParagraphs(sections.skills));
  }

  // -------------------------------------------------------------------
  // The document under construction
  // -------------------------------------------------------------------

  class Document {
    var paragraphs: seq<Paragraph>

    constructor ()
      ensures paragraphs == []
    {
      paragraphs := [];
    }

    /** `doc.add_paragraph(...)` with its `space_after` set; returns the new
        paragraph's position. */
    method AddParagraph(runs: seq<Run>, spaceAfter: nat) returns (p: nat)
      modifies this
      ensures paragraphs == old(paragraphs) + [Paragraph(runs, spaceAfter)]
      ensures p == |old(paragraphs)|
    {
      p := |paragraphs|;
      paragraphs := paragraphs + [Paragraph(runs, spaceAfter)];
    }

    /** `paragraph.add_run(...)` on an existing paragraph. */
    method AddRun(p: nat, run: Run)
      requires p < |paragraphs|
      modifies this
      ensures paragraphs == old(paragraphs)[p := old(paragraphs)[p].(runs := old(paragraphs)[p].runs + [run])]
    {
      paragraphs := paragraphs[p := paragraphs[p].(runs := paragraphs[p].runs + [run])];
    }

    /** `paragraph.paragraph_format.space_after = Pt(pts)` on an existing
        paragraph. */
    method SetSpaceAfter(p: nat, pts: nat)
      requires p < |paragraphs|
      modifies this
      ensures paragraphs == old(paragraphs)[p := old(paragraphs)[p].(spaceAfter := pts)]
    {
      paragraphs := paragraphs[p := paragraphs[p].(spaceAfter := pts)];
    }
  }

  lemma ReplaceLast(base: seq<Paragraph>, x: Paragraph, y: Paragraph)
    ensures (base + [x])[|base| := y] == base + [y]
  {
  }

  /** One contact item on the contact line, the last paragraph `p`: a
      separator first when `partsAdded` says an item is already there,
      then the item. The ghost `items` are the items added so far. */
  method AddContactItem(doc: Document, p: nat, partsAdded: bool, run: Run,
                        ghost base: seq<Paragraph>, ghost items: seq<Run>)
    returns (added: bool)
    requires p == |base|
    requires doc.paragraphs == base + [Paragraph(Separated(items), 0)]
    requires partsAdded <==> items != []
    modifies doc
    ensures doc.paragraphs == base + [Paragraph(Separated(items + [run]), 0)]
    ensures added
  {
    SeparatedSnoc(items, run);
    ghost var line := Paragraph(Separated(items), 0);
    if partsAdded {
      doc.AddRun(p, Separator);
      ReplaceLast(base, line, line.(runs := line.runs + [Separator]));
      line := line.(runs := line.runs + [Separator]);
    }
    doc.AddRun(p, run);
    ReplaceLast(base, line, line.(runs := line.runs + [run]));
    added := true;
  }

  /** The contact line: every present field in order, separated by " | ". */
  method AddContactLine(doc: Document, info: UserInfo)
    modifies doc
    ensures doc.paragraphs == old(doc.paragraphs) + [Paragraph(ContactRuns(info), 0)]
  {
    ghost var base := doc.paragraphs;
    var p := doc.AddParagraph([], 0);
    ghost var items: seq<Run> := [];
    var partsAdded := false;

    if Present(info.phone) {
      partsAdded := AddContactItem(doc, p, partsAdded, Text(info.phone.value), base, items);
      items := items + [Text(info.phone.value)];
    }
    assert items == ContactItems(info.(email := None, linkedin := None, github := None));
    if Present(info.email) {
      partsAdded := AddContactItem(doc, p, partsAdded, Text(info.email.value), base, items);
      items := items + [Text(info.email.value)];
    }
    assert items == ContactItems(info.(linkedin := None, github := None));
    if Present(info.linkedin) {
      partsAdded := AddContactItem(doc, p, partsAdded, Link(info.linkedin.value, "LinkedIn"), base, items);
      items := items + [Link(info.linkedin.value, "LinkedIn")];
    }
    assert items == ContactItems(info.(github := None));
    if Present(info.github) {
      var _ := AddContactItem(doc, p, partsAdded, Link(info.github.value, "GitHub"), base, items);
      items := items + [Link(info.github.value, "GitHub")];
    }
    assert items == ContactItems(info);
  }

  method AddResumeHeader(doc: Document, info: UserInfo)
    modifies doc
    ensures doc.paragraphs == old(doc.paragraphs) + HeaderParagraphs(info)
  {
    var _ := doc.AddParagraph([Text(NameLine(info))], 0);
    AddContactLine(doc, info);
    var _ := doc.AddParagraph([], 0);
  }

  method AddSectionHeader(doc: Document, text: string)
    modifies doc
    ensures doc.paragraphs == old(doc.paragraphs) + [SectionHeading(text)]
  {
    var _ := doc.AddParagraph([Text(Upper(text))], 0);
  }

  method AddSummary(doc: Document, summary: string)
    modifies doc
    ensures doc.paragraphs == old(doc.paragraphs) + [SummaryParagraph(summary)]
  {
    var _ := doc.AddParagraph([Text(summary)], 10);
  }

  lemma BulletParagraphsSnoc(base: seq<Paragraph>, bullets: seq<string>, k: nat)
    requires k < |bullets|
    ensures base + BulletParagraphs(bullets[..k + 1]) == base + BulletParagraphs(bullets[..k]) + [BulletParagraph(bullets[k])]
  {
    assert BulletParagraphs(bullets[..k + 1]) == BulletParagraphs(bullets[..k]) + [BulletParagraph(bullets[k])];
  }

  lemma ConcatAssoc(a: seq<Paragraph>, b: seq<Paragraph>, c: seq<Paragraph>)
    ensures a + b + c == a + (b + c)
  {
  }

  /** Setting 6pt on the last paragraph written is SpaceLast on the block. */
  lemma SpaceLastAppend(base: seq<Paragraph>, block: seq<Paragraph>)
    requires block != []
    ensures var doc := base + block;
      doc[|doc| - 1 := doc[|doc| - 1].(spaceAfter := 6)] == base + SpaceLast(block)
  {
  }

  /** The loop over one job's bullets: one normalised paragraph each;
      returns the position of the last one, if any. */
  method AddBullets(doc: Document, bullets: seq<string>) returns (lastBullet: Option<nat>)
    modifies doc
    ensures doc.paragraphs == old(doc.paragraphs) + BulletParagraphs(bullets)
    ensures lastBullet == if bullets == [] then None else Some(|doc.paragraphs| - 1)
  {
    lastBullet := None;
    var k := 0;
    while k < |bullets|
      invariant 0 <= k <= |bullets|
      invariant doc.paragraphs == old(doc.paragraphs) + BulletParagraphs(bullets[..k])
      invariant |doc.paragraphs| == |old(doc.paragraphs)| + k
      invariant lastBullet == if k == 0 then None else Some(|doc.paragraphs| - 1)
    {
      var clean := NormalizeBullet(bullets[k]);
      assert Paragraph([Text(clean)], 0) == BulletParagraph(bullets[k]);
      var bp := doc.AddParagraph([Text(clean)], 0);
      lastBullet := Some(bp);
      BulletParagraphsSnoc(old(doc.paragraphs), bullets, k);
      k := k + 1;
    }
    assert bullets[..k] == bullets;
  }

  /** The body of the loop over jobs: the heading, one paragraph per
      bullet, then 6pt after whichever paragraph came last. */
  method AddJob(doc: Document, job: Job)
    modifies doc
    ensures doc.paragraphs == old(doc.paragraphs) + JobBlock(job)
  {
    var p := doc.AddParagraph(JobHeadingRuns(job), 0);
    var bullets := job.bullets.GetOr([]);
    var lastBullet := AddBullets(doc, bullets);

    ghost var whole := [Paragraph(JobHeadingRuns(job), 0)] + BulletParagraphs(bullets);
    ConcatAssoc(old(doc.paragraphs), [Paragraph(JobHeadingRuns(job), 0)], BulletParagraphs(bullets));
    ghost var written := doc.paragraphs;
    assert written == old(doc.paragraphs) + whole;

    if lastBullet.Some? {
      doc.SetSpaceAfter(lastBullet.value, 6);
    } else {
      doc.SetSpaceAfter(p, 6);
    }
    assert doc.paragraphs == written[|written| - 1 := written[|written| - 1].(spaceAfter := 6)];
    SpaceLastAppend(old(doc.paragraphs), whole);
  }

  lemma ExperienceParagraphsSnoc(base: seq<Paragraph>, jobs: seq<Job>, i: nat)
    requires i < |jobs|
    ensures base + ExperienceParagraphs(jobs[..i + 1]) == base + ExperienceParagraphs(jobs[..i]) + JobBlock(jobs[i])
  {
    assert jobs[..i + 1][..i] == jobs[..i];
  }

  method AddExperience(doc: Document, jobs: seq<Job>)
    modifies doc
    ensures doc.paragraphs == old(doc.paragraphs) + ExperienceParagraphs(jobs)
  {
    var i := 0;
    while i < |jobs|
      invariant 0 <= i <= |jobs|
      invariant doc.paragraphs == old(doc.paragraphs) + ExperienceParagraphs(jobs[..i])
    {
      AddJob(doc, jobs[i]);
      ExperienceParagraphsSnoc(old(doc.paragraphs), jobs, i);
      i := i + 1;
    }
    assert jobs[..i] == jobs;
  }

  method AddEducation(doc: Document, edus: seq<Education>)
    modifies doc
    ensures doc.paragraphs == old(doc.paragraphs) + EducationParagraphs(edus)
  {
    var i := 0;
    while i < |edus|
      invariant 0 <= i <= |edus|
      invariant doc.paragraphs == old(doc.paragraphs) + EducationParagraphs(edus[..i])
    {
      var edu := edus[i];
      var _ := doc.AddParagraph([Text(edu.degree.GetOr("") + ", " + edu.institution.GetOr("")), Text("\t"), Text(edu.dates.GetOr(""))], 10);
      assert EducationParagraphs(edus[..i + 1]) == EducationParagraphs(edus[..i]) + [EducationParagraph(edu)];
      i := i + 1;
    }
    assert edus[..i] == edus;
  }

  method AddSkills(doc: Document, groups: seq<SkillGroup>)
    modifies doc
    ensures doc.paragraphs == old(doc.paragraphs) + SkillsParagraphs(groups)
  {
    var i := 0;
    while i < |groups|
      invariant 0 <= i <= |groups|
      invariant doc.paragraphs == old(doc.paragraphs) + SkillsParagraphs(groups[..i])
    {
      var group := groups[i];
      var _ := doc.AddParagraph([Text(group.category + ": "), Text(Join(group.skills, ", "))], 0);
      assert SkillsParagraphs(groups[..i + 1]) == SkillsParagraphs(groups[..i]) + [SkillsParagraph(group)];
      i := i + 1;
    }
    assert groups[..i] == groups;
  }

  /** Builds the document and returns the path it is saved under together
      with the paragraphs written there. */
  method GenerateFinalDocx(sections: ResumeSections, userInfo: UserInfo, outputPath: string)
    returns (path: string, saved: seq<Paragraph>)
    ensures path == outputPath
    ensures saved == Layout(sections, userInfo)
  {
    var doc := new Document();
    AddResumeHeader(doc, userInfo);
    assert doc.paragraphs == HeaderParagraphs(userInfo);
    AddSectionHeader(doc, "SUMMARY");
    AddSummary(doc, sections.summary);
    AddSectionHeader(doc, "EXPERIENCE");
    AddExperience(doc, sections.experience);
    AddSectionHeader(doc, "EDUCATION");
    AddEducation(doc, sections.education);
    AddSectionHeader(doc, "SKILLS");
    AddSkills(doc, sections.skills);
    saved := doc.paragraphs;
    path := outputPath;
  }
}
