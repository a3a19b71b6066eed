/**
 * The CONTRIBUTING template of pkg/contributing/contributing.go: sections
 * built from a project URL, a project name derived from it and an issue
 * tracker URL, assembled into a fixed three-level hierarchy.
 */
module Contributing {
  import opened Wrappers
  import opened DoYouCompute
  import opened GoStrings
  import Helpers

  datatype Props = Props(
    name: string,
    projectUrl: string,
    issueTrackerUrl: string,
    gettingStarted: Section,
    choseATask: Section,
    setup: Section,
    development: Section,
    submissions: Section,
    writingDocs: Section,
    reportingbugs: Section,
    license: Section)

  /** One constructor per `With*` option of the template. */
  datatype ContributingOption =
    | WithName(name: string)
    | WithProjectUrl(url: string)
    | WithIssueTrackerUrl(url: string)
    | WithGettingStarted(section: Section)
    | WithChoseATask(section: Section)
    | WithSetup(section: Section)
    | WithDevelopment(section: Section)
    | WithSubmissions(section: Section)
    | WithWritingDocs(section: Section)
    | WithReportingbugs(section: Section)
    | WithLicense(section: Section)

  // ------------------------------------------------------------ project name

  /**
   * The last piece of the project URL split on '/': the longest suffix that
   * holds no '/'. The index is in bounds because Split never returns an
   * empty list.
   */
  function ProjectName(projectUrl: string): (name: string)
    ensures '/' !in name
    ensures |name| <= |projectUrl| && name == projectUrl[|projectUrl| - |name|..]
    ensures |name| == |projectUrl| || projectUrl[|projectUrl| - |name| - 1] == '/'
  {
    var parts := Split(projectUrl, '/');
    LastPiece(projectUrl);
    parts[|parts| - 1]
  }

  lemma LastPiece(url: string)
    ensures var parts := Split(url, '/'); var last := parts[|parts| - 1];
      && '/' !in last
      && |last| <= |url| && last == url[|url| - |last|..]
      && (|last| == |url| || url[|url| - |last| - 1] == '/')
  {
    var parts := Split(url, '/');
    SplitJoin(url, '/');
    if |parts| >= 2 {
      JoinLast(parts, '/');
      var init := Join(parts[..|parts| - 1], '/');
      assert url == init + ['/'] + parts[|parts| - 1];
    }
  }

  /** The three conditions of ProjectName's contract pin the name down. */
  lemma ProjectNameUnique(url: string, r: string)
    requires '/' !in r
    requires |r| <= |url| && r == url[|url| - |r|..]
    requires |r| == |url| || url[|url| - |r| - 1] == '/'
    ensures r == ProjectName(url)
  {
    var n := ProjectName(url);
  }

  /** No '/' gives the whole URL; a trailing '/' gives the empty name. */
  lemma ProjectNameCases(url: string)
    ensures '/' !in url ==> ProjectName(url) == url
    ensures |url| > 0 && url[|url| - 1] == '/' ==> ProjectName(url) == ""
  {
    if '/' !in url {
      ProjectNameUnique(url, url);
    }
    if |url| > 0 && url[|url| - 1] == '/' {
      ProjectNameUnique(url, "");
    }
  }

  lemma ProjectNameOfRepositoryUrl()
    ensures ProjectName("https://github.com/user/awesome-project") == "awesome-project"
  {
    ProjectNameUnique("https://github.com/user/awesome-project", "awesome-project");
  }

  // ----------------------------------------------------------- default parts

  function DefaultName(): (n: string)
    ensures n == "Contributing"
  {
    "Contributing"
  }

  // Each default section is a SectionFactory call whose closure writes the
  // section's blocks; the body is written out once, as a content function.

  function GettingStartedContent(s: Section): (r: Section)
    ensures r.name == s.name && Mentions(r) == Mentions(s)
  {
    WriteMentions(s, Prose);
    Write(s, Prose)
  }

  function DefaultGettingStarted(): (s: Section)
    ensures s.name == "Getting started" && Mentions(s) == {}
  {
    Helpers.FactoryOne("Getting started", (s: Section) => GettingStartedContent(s));
    Helpers.Factory("Getting started", [(s: Section) => GettingStartedContent(s)])
  }

  /** A paragraph linking the issue tracker, then static prose and a list. */
  function ChoseATaskContent(s: Section, issueTrackerUrl: string): (r: Section)
    ensures r.name == s.name && Mentions(r) == Mentions(s) + {issueTrackerUrl}
  {
    var s1 := Write(s, Mention(issueTrackerUrl));
    WriteMentions(s, Mention(issueTrackerUrl));
    WriteMentions(s1, Prose);
    WriteMentions(Write(s1, Prose), Prose);
    Write(Write(s1, Prose), Prose)
  }

  function DefaultChoseATask(issueTrackerUrl: string): (s: Section)
    ensures s.name == "Find a task" && Mentions(s) == {issueTrackerUrl}
  {
    Helpers.FactoryOne("Find a task", (s: Section) => ChoseATaskContent(s, issueTrackerUrl));
    Helpers.Factory("Find a task", [(s: Section) => ChoseATaskContent(s, issueTrackerUrl)])
  }

  function LicenseContent(s: Section): (r: Section)
    ensures r.name == s.name && Mentions(r) == Mentions(s)
  {
    WriteMentions(s, Prose);
    Write(s, Prose)
  }

  function DefaultLicense(): (s: Section)
    ensures s.name == "License" && Mentions(s) == {}
  {
    Helpers.FactoryOne("License", (s: Section) => LicenseContent(s));
    Helpers.Factory("License", [(s: Section) => LicenseContent(s)])
  }

  function WritingDocsContent(s: Section): (r: Section)
    ensures r.name == s.name && Mentions(r) == Mentions(s)
  {
    WriteMentions(s, Prose);
    WriteMentions(Write(s, Prose), Prose);
    Write(Write(s, Prose), Prose)
  }

  function DefaultWritingDocs(): (s: Section)
    ensures s.name == "Writing documentation" && Mentions(s) == {}
  {
    Helpers.FactoryOne("Writing documentation", (s: Section) => WritingDocsContent(s));
    Helpers.Factory("Writing documentation", [(s: Section) => WritingDocsContent(s)])
  }

  /** Two nested sections, the first linking the issue tracker. */
  function ReportingBugsContent(s: Section, issueTrackerUrl: string): (r: Section)
    ensures r.name == s.name && Mentions(r) == Mentions(s) + {issueTrackerUrl}
    ensures |r.body| == |s.body| + 2 && r.body[..|s.body|] == s.body
    ensures r.body[|s.body|].Sub? && r.body[|s.body|].section.name == "Checking for Existing Reports"
    ensures Mentions(r.body[|s.body|].section) == {issueTrackerUrl}
    ensures r.body[|s.body| + 1].Sub? && r.body[|s.body| + 1].section.name == "Reporting new bugs"
    ensures Mentions(r.body[|s.body| + 1].section) == {}
  {
    var checking := Write(NewSection("Checking for Existing Reports"), Mention(issueTrackerUrl));
    var creating := Write(NewSection("Reporting new bugs"), Prose);
    WriteMentions(NewSection("Checking for Existing Reports"), Mention(issueTrackerUrl));
    WriteMentions(NewSection("Reporting new bugs"), Prose);
    WriteMentions(s, Sub(checking));
    WriteMentions(AddSubsection(s, checking), Sub(creating));
    AddSubsection(AddSubsection(s, checking), creating)
  }

  function DefaultReportingBugs(issueTrackerUrl: string): (s: Section)
    ensures s.name == "Reporting bugs" && Mentions(s) == {issueTrackerUrl}
  {
    Helpers.FactoryOne("Reporting bugs", (s: Section) => ReportingBugsContent(s, issueTrackerUrl));
    Helpers.Factory("Reporting bugs", [(s: Section) => ReportingBugsContent(s, issueTrackerUrl)])
  }

  /** Links the project URL, then clones into, and enters, a directory named after the project. */
  function SetupContent(s: Section, projectUrl: string, projectName: string): (r: Section)
    ensures r.name == s.name && Mentions(r) == Mentions(s) + {projectUrl, projectName}
  {
    var s1 := Write(s, Mention(projectUrl));
    var s2 := Write(s1, Prose);
    var s3 := Write(s2, Mention(projectName));
    var s4 := Write(s3, Mention(projectName));
    var s5 := Write(s4, Prose);
    var s6 := Write(s5, Prose);
    WriteMentions(s, Mention(projectUrl));
    WriteMentions(s1, Prose);
    WriteMentions(s2, Mention(projectName));
    WriteMentions(s3, Mention(projectName));
    WriteMentions(s4, Prose);
    WriteMentions(s5, Prose);
    WriteMentions(s6, Prose);
    Write(s6, Prose)
  }

  function DefaultOpenSourceGoSetupGuidelines(projectUrl: string, projectName: string): (s: Section)
    ensures s.name == "Setting Up Your Development Environment"
    ensures Mentions(s) == {projectUrl, projectName}
  {
    Helpers.FactoryOne("Setting Up Your Development Environment",
                       (s: Section) => SetupContent(s, projectUrl, projectName));
    Helpers.Factory("Setting Up Your Development Environment",
                    [(s: Section) => SetupContent(s, projectUrl, projectName)])
  }

  /** `n` static blocks (headings, paragraphs, lists) appended to `s`. */
  function ProseContent(s: Section, n: nat): (r: Section)
    ensures r.name == s.name && Mentions(r) == Mentions(s)
    ensures r.body == s.body + seq(n, _ => Prose)
  {
    if n == 0 then
      assert s.body + seq(0, _ => Prose) == s.body;
      s
    else
      var r := ProseContent(s, n - 1);
      WriteMentions(r, Prose);
      assert s.body + seq(n, _ => Prose) == s.body + seq(n - 1, _ => Prose) + [Prose];
      Write(r, Prose)
  }

  function DefaultOpenSourceGoDevelopmentGuidelines(): (s: Section)
    ensures s.name == "Development Workflow" && Mentions(s) == {}
  {
    Helpers.FactoryOne("Development Workflow", (s: Section) => ProseContent(s, 5));
    Helpers.Factory("Development Workflow", [(s: Section) => ProseContent(s, 5)])
  }

  function DefaultOpenSourceSubmittingGuidelines(): (s: Section)
    ensures s.name == "Submitting your changes" && Mentions(s) == {}
  {
    Helpers.FactoryOne("Submitting your changes", (s: Section) => ProseContent(s, 7));
    Helpers.Factory("Submitting your changes", [(s: Section) => ProseContent(s, 7)])
  }

  /** The properties `New` starts from; the project name and the setup section are computed here, once. */
  function Defaults(projectUrl: string, issueTrackerUrl: string): (r: Props)
    ensures r.name == "Contributing" && r.projectUrl == projectUrl && r.issueTrackerUrl == issueTrackerUrl
    ensures r.gettingStarted.name == "Getting started" && r.license.name == "License"
    ensures Mentions(r.choseATask) == {issueTrackerUrl} && Mentions(r.reportingbugs) == {issueTrackerUrl}
    ensures Mentions(r.setup) == {projectUrl, ProjectName(projectUrl)}
  {
    Props(DefaultName(), projectUrl, issueTrackerUrl,
          DefaultGettingStarted(),
          DefaultChoseATask(issueTrackerUrl),
          DefaultOpenSourceGoSetupGuidelines(projectUrl, ProjectName(projectUrl)),
          DefaultOpenSourceGoDevelopmentGuidelines(),
          DefaultOpenSourceSubmittingGuidelines(),
          DefaultWritingDocs(),
          DefaultReportingBugs(issueTrackerUrl),
          DefaultLicense())
  }

  // ----------------------------------------------------------------- options

  /** `WithIssueTrackerUrl`'s post-effect: rebuilds both sections that link the issue tracker. */
  function TrackerFinalizer(url: string): (pe: Helpers.PostEffect<Props, string>)
    ensures forall p: Props :: pe(p).Success?
    ensures forall p: Props :: Mentions(pe(p).value.choseATask) == {url} && Mentions(pe(p).value.reportingbugs) == {url}
    ensures forall p: Props :: pe(p).value.(choseATask := p.choseATask, reportingbugs := p.reportingbugs) == p
  {
    (p: Props) => Success(p.(choseATask := DefaultChoseATask(url), reportingbugs := DefaultReportingBugs(url)))
  }

  /** The closure each `With*` function returns: it never fails, and only `WithIssueTrackerUrl` returns a post-effect. */
  function Func(o: ContributingOption): (f: Helpers.OptionsFunc<Props, string>)
    ensures forall p: Props :: f(p).Success?
    ensures forall p: Props :: f(p).value.1.Some? <==> o.WithIssueTrackerUrl?
  {
    match o
    case WithName(n) => (p: Props) => Success((p.(name := n), None))
    case WithProjectUrl(u) => (p: Props) => Success((p.(projectUrl := u), None))
    case WithIssueTrackerUrl(u) => (p: Props) => Success((p.(issueTrackerUrl := u), Some(TrackerFinalizer(u))))
    case WithGettingStarted(s) => (p: Props) => Success((p.(gettingStarted := s), None))
    case WithChoseATask(s) => (p: Props) => Success((p.(choseATask := s), None))
    case WithSetup(s) => (p: Props) => Success((p.(setup := s), None))
    case WithDevelopment(s) => (p: Props) => Success((p.(development := s), None))
    case WithSubmissions(s) => (p: Props) => Success((p.(submissions := s), None))
    case WithWritingDocs(s) => (p: Props) => Success((p.(writingDocs := s), None))
    case WithReportingbugs(s) => (p: Props) => Success((p.(reportingbugs := s), None))
    case WithLicense(s) => (p: Props) => Success((p.(license := s), None))
  }

  function Funcs(opts: seq<ContributingOption>): seq<Helpers.OptionsFunc<Props, string>>
  {
    Helpers.Map(Func, opts)
  }

  // What each option writes, field by field (None: leaves the field alone).

  function NameWrite(o: ContributingOption): Option<string>
  {
    if o.WithName? then Some(o.name) else None
  }

  function ProjectUrlWrite(o: ContributingOption): Option<string>
  {
    if o.WithProjectUrl? then Some(o.url) else None
  }

  function IssueTrackerUrlWrite(o: ContributingOption): Option<string>
  {
    if o.WithIssueTrackerUrl? then Some(o.url) else None
  }

  function GettingStartedWrite(o: ContributingOption): Option<Section>
  {
    if o.WithGettingStarted? then Some(o.section) else None
  }

  function ChoseATaskWrite(o: ContributingOption): Option<Section>
  {
    match o
    case WithChoseATask(s) => Some(s)
    case WithIssueTrackerUrl(u) => Some(DefaultChoseATask(u))
    case _ => None
  }

  function SetupWrite(o: ContributingOption): Option<Section>
  {
    if o.WithSetup? then Some(o.section) else None
  }

  function DevelopmentWrite(o: ContributingOption): Option<Section>
  {
    if o.WithDevelopment? then Some(o.section) else None
  }

  function SubmissionsWrite(o: ContributingOption): Option<Section>
  {
    if o.WithSubmissions? then Some(o.section) else None
  }

  function WritingDocsWrite(o: ContributingOption): Option<Section>
  {
    if o.WithWritingDocs? then Some(o.section) else None
  }

  function ReportingbugsWrite(o: ContributingOption): Option<Section>
  {
    match o
    case WithReportingbugs(s) => Some(s)
    case WithIssueTrackerUrl(u) => Some(DefaultReportingBugs(u))
    case _ => None
  }

  function LicenseWrite(o: ContributingOption): Option<Section>
  {
    if o.WithLicense? then Some(o.section) else None
  }

  /** Reference semantics of a list of options: every field holds the value of its last writer. */
  function Configured(p: Props, opts: seq<ContributingOption>): Props
  {
    Props(
      Helpers.Last(opts, NameWrite, p.name),
      Helpers.Last(opts, ProjectUrlWrite, p.projectUrl),
      Helpers.Last(opts, IssueTrackerUrlWrite, p.issueTrackerUrl),
      Helpers.Last(opts, GettingStartedWrite, p.gettingStarted),
      Helpers.Last(opts, ChoseATaskWrite, p.choseATask),
      Helpers.Last(opts, SetupWrite, p.setup),
      Helpers.Last(opts, DevelopmentWrite, p.development),
      Helpers.Last(opts, SubmissionsWrite, p.submissions),
      Helpers.Last(opts, WritingDocsWrite, p.writingDocs),
      Helpers.Last(opts, ReportingbugsWrite, p.reportingbugs),
      Helpers.Last(opts, LicenseWrite, p.license))
  }

  // ----------------------------------------------------------------- assembly

  /** "Contribution guidelines" > "Code contributions" > setup, development, submissions; then bugs and docs. */
  function Guidelines(p: Props): (g: Section)
    ensures g.name == "Contribution guidelines" && |g.body| == 3
    ensures g.body[0] == Sub(Section("Code contributions", [Sub(p.setup), Sub(p.development), Sub(p.submissions)]))
    ensures g.body[1] == Sub(p.reportingbugs) && g.body[2] == Sub(p.writingDocs)
  {
    var code := AddSubsection(AddSubsection(AddSubsection(NewSection("Code contributions"),
                  p.setup), p.development), p.submissions);
    assert code.body == [Sub(p.setup), Sub(p.development), Sub(p.submissions)];
    AddSubsection(AddSubsection(AddSubsection(NewSection("Contribution guidelines"),
      code), p.reportingbugs), p.writingDocs)
  }

  /** The body of the applier `New` hands to DocumentBuilder. */
  function Attach(d: Document, p: Props): (r: Document)
    ensures r.name == d.name && r.frontmatter == d.frontmatter && r.intro == d.intro
    ensures |r.content| == |d.content| + 3 && r.content[..|d.content|] == d.content
    ensures r.content[|d.content|] == Section(p.gettingStarted.name, p.gettingStarted.body + [Sub(p.choseATask)])
    ensures r.content[|d.content| + 1] == Guidelines(p) && r.content[|d.content| + 2] == p.license
  {
    AddSection(AddSection(AddSection(d, AddSubsection(p.gettingStarted, p.choseATask)), Guidelines(p)), p.license)
  }

  function Appliers(p: Props): seq<Helpers.DocumentApplier<string>>
  {
    [d => (Attach(d, p), None)]
  }

  /** What `New` returns. */
  function Composed(projectUrl: string, issueTrackerUrl: string, opts: seq<ContributingOption>): (Document, Option<string>)
  {
    match Helpers.Applied(Defaults(projectUrl, issueTrackerUrl), Funcs(opts))
    case Failure(e) => (EmptyDocument(), Some(e))
    case Success(p) => (Helpers.Built(p.name, Appliers(p)), None)
  }

  method New(projectUrl: string, issueTrackerUrl: string, opts: seq<ContributingOption>)
    returns (doc: Document, err: Option<string>)
    ensures (doc, err) == Composed(projectUrl, issueTrackerUrl, opts)
  {
    var projectName := ProjectName(projectUrl);
    var props := Props(DefaultName(), projectUrl, issueTrackerUrl,
                       DefaultGettingStarted(),
                       DefaultChoseATask(issueTrackerUrl),
                       DefaultOpenSourceGoSetupGuidelines(projectUrl, projectName),
                       DefaultOpenSourceGoDevelopmentGuidelines(),
                       DefaultOpenSourceSubmittingGuidelines(),
                       DefaultWritingDocs(),
                       DefaultReportingBugs(issueTrackerUrl),
                       DefaultLicense());
    var applied := Helpers.ApplyOptions(props, Funcs(opts));
    if applied.Failure? {
      return EmptyDocument(), Some(applied.error);
    }
    props := applied.value;
    doc, err := Helpers.DocumentBuilder(props.name, Appliers(props));
  }

  // ---------------------------------------------------------------- lemmas

  /** A single option, field by field. */
  lemma ConfiguredOne(p: Props, o: ContributingOption)
    ensures Configured(p, [o]) == Props(
      if NameWrite(o).Some? then NameWrite(o).value else p.name,
      if ProjectUrlWrite(o).Some? then ProjectUrlWrite(o).value else p.projectUrl,
      if IssueTrackerUrlWrite(o).Some? then IssueTrackerUrlWrite(o).value else p.issueTrackerUrl,
      if GettingStartedWrite(o).Some? then GettingStartedWrite(o).value else p.gettingStarted,
      if ChoseATaskWrite(o).Some? then ChoseATaskWrite(o).value else p.choseATask,
      if SetupWrite(o).Some? then SetupWrite(o).value else p.setup,
      if DevelopmentWrite(o).Some? then DevelopmentWrite(o).value else p.development,
      if SubmissionsWrite(o).Some? then SubmissionsWrite(o).value else p.submissions,
      if WritingDocsWrite(o).Some? then WritingDocsWrite(o).value else p.writingDocs,
      if ReportingbugsWrite(o).Some? then ReportingbugsWrite(o).value else p.reportingbugs,
      if LicenseWrite(o).Some? then LicenseWrite(o).value else p.license)
  {
    Helpers.LastOne(o, NameWrite, p.name);
    Helpers.LastOne(o, ProjectUrlWrite, p.projectUrl);
    Helpers.LastOne(o, IssueTrackerUrlWrite, p.issueTrackerUrl);
    Helpers.LastOne(o, GettingStartedWrite, p.gettingStarted);
    Helpers.LastOne(o, ChoseATaskWrite, p.choseATask);
    Helpers.LastOne(o, SetupWrite, p.setup);
    Helpers.LastOne(o, DevelopmentWrite, p.development);
    Helpers.LastOne(o, SubmissionsWrite, p.submissions);
    Helpers.LastOne(o, WritingDocsWrite, p.writingDocs);
    Helpers.LastOne(o, ReportingbugsWrite, p.reportingbugs);
    Helpers.LastOne(o, LicenseWrite, p.license);
  }

  lemma StepIsConfigured(p: Props, o: ContributingOption)
    ensures Helpers.Step(p, Func(o)) == Success(Configured(p, [o]))
  {
    ConfiguredOne(p, o);
  }

  lemma ConfiguredCons(p: Props, o: ContributingOption, rest: seq<ContributingOption>)
    ensures Configured(Configured(p, [o]), rest) == Configured(p, [o] + rest)
  {
    Helpers.LastCons(o, rest, NameWrite, p.name);
    Helpers.LastCons(o, rest, ProjectUrlWrite, p.projectUrl);
    Helpers.LastCons(o, rest, IssueTrackerUrlWrite, p.issueTrackerUrl);
    Helpers.LastCons(o, rest, GettingStartedWrite, p.gettingStarted);
    Helpers.LastCons(o, rest, ChoseATaskWrite, p.choseATask);
    Helpers.LastCons(o, rest, SetupWrite, p.setup);
    Helpers.LastCons(o, rest, DevelopmentWrite, p.development);
    Helpers.LastCons(o, rest, SubmissionsWrite, p.submissions);
    Helpers.LastCons(o, rest, WritingDocsWrite, p.writingDocs);
    Helpers.LastCons(o, rest, ReportingbugsWrite, p.reportingbugs);
    Helpers.LastCons(o, rest, LicenseWrite, p.license);
  }

  /** The options never fail, and applying them yields the last-writer-wins properties. */
  lemma {:induction false} AppliedIsConfigured(p: Props, opts: seq<ContributingOption>)
    ensures Helpers.Applied(p, Funcs(opts)) == Success(Configured(p, opts))
    decreases |opts|
  {
    if opts != [] {
      var o := opts[0];
      assert opts == [o] + opts[1..];
      assert Funcs(opts)[0] == Func(o) && Funcs(opts)[1..] == Funcs(opts[1..]);
      StepIsConfigured(p, o);
      AppliedIsConfigured(Configured(p, [o]), opts[1..]);
      ConfiguredCons(p, o, opts[1..]);
    }
  }

  /** `WithIssueTrackerUrl(u)` sets the URL, and its post-effect rebuilds both sections that link it. */
  lemma TrackerUrlRebuildsSections(p: Props, u: string)
    ensures Helpers.Step(p, Func(WithIssueTrackerUrl(u))) ==
            Success(p.(issueTrackerUrl := u, choseATask := DefaultChoseATask(u), reportingbugs := DefaultReportingBugs(u)))
    ensures Configured(p, [WithIssueTrackerUrl(u)]) ==
            p.(issueTrackerUrl := u, choseATask := DefaultChoseATask(u), reportingbugs := DefaultReportingBugs(u))
  {
    ConfiguredOne(p, WithIssueTrackerUrl(u));
  }

  /** A later `WithIssueTrackerUrl` overwrites any earlier `WithChoseATask` or `WithReportingbugs`. */
  lemma TrackerUrlOverridesEarlierSections(p: Props, opts: seq<ContributingOption>, u: string)
    ensures Configured(p, opts + [WithIssueTrackerUrl(u)]).choseATask == DefaultChoseATask(u)
    ensures Configured(p, opts + [WithIssueTrackerUrl(u)]).reportingbugs == DefaultReportingBugs(u)
    ensures Configured(p, opts + [WithIssueTrackerUrl(u)]).issueTrackerUrl == u
  {
    Helpers.LastSnoc(opts, WithIssueTrackerUrl(u), ChoseATaskWrite, p.choseATask);
    Helpers.LastSnoc(opts, WithIssueTrackerUrl(u), ReportingbugsWrite, p.reportingbugs);
    Helpers.LastSnoc(opts, WithIssueTrackerUrl(u), IssueTrackerUrlWrite, p.issueTrackerUrl);
  }

  /** `WithProjectUrl` changes only the URL field; the section overrides each replace only their own field. */
  lemma OptionsChangeOneField(p: Props, n: string, u: string, s: Section)
    ensures Configured(p, [WithName(n)]) == p.(name := n)
    ensures Configured(p, [WithProjectUrl(u)]) == p.(projectUrl := u)
    ensures Configured(p, [WithGettingStarted(s)]) == p.(gettingStarted := s)
    ensures Configured(p, [WithChoseATask(s)]) == p.(choseATask := s)
    ensures Configured(p, [WithSetup(s)]) == p.(setup := s)
    ensures Configured(p, [WithDevelopment(s)]) == p.(development := s)
    ensures Configured(p, [WithSubmissions(s)]) == p.(submissions := s)
    ensures Configured(p, [WithWritingDocs(s)]) == p.(writingDocs := s)
    ensures Configured(p, [WithReportingbugs(s)]) == p.(reportingbugs := s)
    ensures Configured(p, [WithLicense(s)]) == p.(license := s)
  {
    ConfiguredOne(p, WithName(n));
    ConfiguredOne(p, WithProjectUrl(u));
    ConfiguredOne(p, WithGettingStarted(s));
    ConfiguredOne(p, WithChoseATask(s));
    ConfiguredOne(p, WithSetup(s));
    ConfiguredOne(p, WithDevelopment(s));
    ConfiguredOne(p, WithSubmissions(s));
    ConfiguredOne(p, WithWritingDocs(s));
    ConfiguredOne(p, WithReportingbugs(s));
    ConfiguredOne(p, WithLicense(s));
  }

  /**
   * The setup section is built once from the URL given to `New` and its
   * project name; without `WithSetup`, no option (`WithProjectUrl` included) rebuilds it.
   */
  lemma SetupNotRebuilt(projectUrl: string, issueTrackerUrl: string, opts: seq<ContributingOption>)
    requires forall i :: 0 <= i < |opts| ==> !opts[i].WithSetup?
    ensures Configured(Defaults(projectUrl, issueTrackerUrl), opts).setup ==
            DefaultOpenSourceGoSetupGuidelines(projectUrl, ProjectName(projectUrl))
  {
    Helpers.LastUntouched(opts, SetupWrite, Defaults(projectUrl, issueTrackerUrl).setup);
  }

  /** The three top-level sections `New` attaches, spelled out. */
  lemma BuiltContributing(p: Props)
    ensures p.name == "" ==> Helpers.Built(p.name, Appliers(p)) == EmptyDocument()
    ensures p.name != "" ==> Helpers.Built(p.name, Appliers(p)) == Document(p.name, None, None, [
              Section(p.gettingStarted.name, p.gettingStarted.body + [Sub(p.choseATask)]),
              Section("Contribution guidelines", [
                Sub(Section("Code contributions", [Sub(p.setup), Sub(p.development), Sub(p.submissions)])),
                Sub(p.reportingbugs),
                Sub(p.writingDocs)]),
              p.license])
  {
    if p.name != "" {
      assert Appliers(p)[1..] == [];
      assert Helpers.Built(p.name, Appliers(p)) == Attach(Document(p.name, None, None, []), p);
      assert [] + [Sub(p.setup)] + [Sub(p.development)] + [Sub(p.submissions)] ==
             [Sub(p.setup), Sub(p.development), Sub(p.submissions)];
      var code := Section("Code contributions", [Sub(p.setup), Sub(p.development), Sub(p.submissions)]);
      assert [] + [Sub(code)] + [Sub(p.reportingbugs)] + [Sub(p.writingDocs)] ==
             [Sub(code), Sub(p.reportingbugs), Sub(p.writingDocs)];
    }
  }

  /**
   * `New` never returns an error: it builds the document from the
   * last-writer-wins properties. With an empty final name the document
   * library refuses the document and the empty document comes back, still
   * without an error.
   */
  lemma ComposedOutcome(projectUrl: string, issueTrackerUrl: string, opts: seq<ContributingOption>)
    ensures var p := Configured(Defaults(projectUrl, issueTrackerUrl), opts);
            Composed(projectUrl, issueTrackerUrl, opts) == (Helpers.Built(p.name, Appliers(p)), None)
  {
    AppliedIsConfigured(Defaults(projectUrl, issueTrackerUrl), opts);
  }

  /** What the assembled document mentions: the union of what its eight parts mention. */
  lemma LayoutMentions(p: Props)
    ensures ContentMentions([AddSubsection(p.gettingStarted, p.choseATask), Guidelines(p), p.license]) ==
            Mentions(p.gettingStarted) + Mentions(p.choseATask) + Mentions(p.setup) + Mentions(p.development) +
            Mentions(p.submissions) + Mentions(p.reportingbugs) + Mentions(p.writingDocs) + Mentions(p.license)
  {
    WriteMentions(p.gettingStarted, Sub(p.choseATask));
    var c0 := NewSection("Code contributions");
    WriteMentions(c0, Sub(p.setup));
    WriteMentions(AddSubsection(c0, p.setup), Sub(p.development));
    WriteMentions(AddSubsection(AddSubsection(c0, p.setup), p.development), Sub(p.submissions));
    var code := AddSubsection(AddSubsection(AddSubsection(c0, p.setup), p.development), p.submissions);
    var g0 := NewSection("Contribution guidelines");
    WriteMentions(g0, Sub(code));
    WriteMentions(AddSubsection(g0, code), Sub(p.reportingbugs));
    WriteMentions(AddSubsection(AddSubsection(g0, code), p.reportingbugs), Sub(p.writingDocs));
    var gs := AddSubsection(p.gettingStarted, p.choseATask);
    ContentMentionsAppend([], gs);
    ContentMentionsAppend([gs], Guidelines(p));
    ContentMentionsAppend([gs, Guidelines(p)], p.license);
    assert [] + [gs] == [gs];
    assert [gs] + [Guidelines(p)] == [gs, Guidelines(p)];
    assert [gs, Guidelines(p)] + [p.license] == [gs, Guidelines(p), p.license];
  }

  /** A built document mentions exactly what its eight parts mention. */
  lemma BuiltMentions(p: Props)
    requires p.name != ""
    ensures ContentMentions(Helpers.Built(p.name, Appliers(p)).content) ==
            Mentions(p.gettingStarted) + Mentions(p.choseATask) + Mentions(p.setup) + Mentions(p.development) +
            Mentions(p.submissions) + Mentions(p.reportingbugs) + Mentions(p.writingDocs) + Mentions(p.license)
  {
    assert Appliers(p)[1..] == [];
    assert Helpers.Built(p.name, Appliers(p)) == Attach(Document(p.name, None, None, []), p);
    var gs := AddSubsection(p.gettingStarted, p.choseATask);
    assert [] + [gs] + [Guidelines(p)] + [p.license] == [gs, Guidelines(p), p.license];
    LayoutMentions(p);
  }

  /** A built document's top-level section names. */
  lemma BuiltNames(p: Props)
    requires p.name != ""
    ensures Names(Helpers.Built(p.name, Appliers(p)).content) ==
            [p.gettingStarted.name, "Contribution guidelines", p.license.name]
  {
    var c := Helpers.Built(p.name, Appliers(p)).content;
    assert c == [AddSubsection(p.gettingStarted, p.choseATask), Guidelines(p), p.license] by {
      assert Appliers(p)[1..] == [];
      assert Helpers.Built(p.name, Appliers(p)) == Attach(Document(p.name, None, None, []), p);
      var gs := AddSubsection(p.gettingStarted, p.choseATask);
      assert [] + [gs] + [Guidelines(p)] + [p.license] == [gs, Guidelines(p), p.license];
    }
    assert Names(c) == [c[0].name, c[1].name, c[2].name];
  }

  lemma DefaultsSilent(projectUrl: string, issueTrackerUrl: string)
    ensures var p := Defaults(projectUrl, issueTrackerUrl);
      Mentions(p.gettingStarted) + Mentions(p.development) + Mentions(p.submissions) +
      Mentions(p.writingDocs) + Mentions(p.license) == {}
  {
  }

  lemma DefaultsTracker(projectUrl: string, issueTrackerUrl: string)
    ensures var p := Defaults(projectUrl, issueTrackerUrl);
      Mentions(p.choseATask) + Mentions(p.reportingbugs) == {issueTrackerUrl}
  {
  }

  /** The default name and the names of the first and last top-level sections. */
  lemma DefaultsNames(projectUrl: string, issueTrackerUrl: string)
    ensures var p := Defaults(projectUrl, issueTrackerUrl);
      && p.name == "Contributing"
      && p.gettingStarted.name == "Getting started" && p.license.name == "License"
  {
  }

  /** Together the default sections show exactly the two URLs and the project name. */
  lemma DefaultsMentions(projectUrl: string, issueTrackerUrl: string)
    ensures var p := Defaults(projectUrl, issueTrackerUrl);
         Mentions(p.gettingStarted) + Mentions(p.choseATask) + Mentions(p.setup) + Mentions(p.development) +
         Mentions(p.submissions) + Mentions(p.reportingbugs) + Mentions(p.writingDocs) + Mentions(p.license)
         == {projectUrl, ProjectName(projectUrl), issueTrackerUrl}
  {
    var p := Defaults(projectUrl, issueTrackerUrl);
    DefaultsSilent(projectUrl, issueTrackerUrl);
    DefaultsTracker(projectUrl, issueTrackerUrl);
    UnionOfParts(Mentions(p.gettingStarted), Mentions(p.choseATask), Mentions(p.setup), Mentions(p.development),
                 Mentions(p.submissions), Mentions(p.reportingbugs), Mentions(p.writingDocs), Mentions(p.license),
                 {projectUrl, ProjectName(projectUrl)}, {issueTrackerUrl});
  }

  lemma UnionOfParts<X>(a: set<X>, b: set<X>, c: set<X>, d: set<X>, e: set<X>, f: set<X>, g: set<X>, h: set<X>,
                        setup: set<X>, tracker: set<X>)
    requires a + d + e + g + h == {} && b + f == tracker && c == setup
    ensures a + b + c + d + e + f + g + h == setup + tracker
  {
  }

  lemma DefaultComposed(projectUrl: string, issueTrackerUrl: string)
    ensures var p := Defaults(projectUrl, issueTrackerUrl);
      Composed(projectUrl, issueTrackerUrl, []) == (Helpers.Built(p.name, Appliers(p)), None)
  {
  }

  /**
   * With no options: the name "Contributing", the sections "Getting started",
   * "Contribution guidelines" and "License", mentioning exactly the project
   * URL, the project name and the issue tracker URL.
   */
  lemma DefaultContributing(projectUrl: string, issueTrackerUrl: string)
    ensures var d := Composed(projectUrl, issueTrackerUrl, []).0;
      && d.name == "Contributing"
      && Names(d.content) == ["Getting started", "Contribution guidelines", "License"]
      && ContentMentions(d.content) == {projectUrl, ProjectName(projectUrl), issueTrackerUrl}
  {
    var p := Defaults(projectUrl, issueTrackerUrl);
    DefaultComposed(projectUrl, issueTrackerUrl);
    DefaultsNames(projectUrl, issueTrackerUrl);
    DefaultsMentions(projectUrl, issueTrackerUrl);
    BuiltNames(p);
    BuiltMentions(p);
  }

  /**
   * After `WithIssueTrackerUrl(u)` the document mentions `u` in place of the
   * issue tracker URL given to `New`.
   */
  lemma TrackerUpdateMentions(projectUrl: string, issueTrackerUrl: string, u: string)
    ensures ContentMentions(Composed(projectUrl, issueTrackerUrl, [WithIssueTrackerUrl(u)]).0.content) ==
            {projectUrl, ProjectName(projectUrl), u}
  {
    var d := Defaults(projectUrl, issueTrackerUrl);
    var p := Configured(d, [WithIssueTrackerUrl(u)]);
    TrackerUrlRebuildsSections(d, u);
    ComposedOutcome(projectUrl, issueTrackerUrl, [WithIssueTrackerUrl(u)]);
    DefaultsNames(projectUrl, u);
    DefaultsMentions(projectUrl, u);
    assert p == Defaults(projectUrl, u).(issueTrackerUrl := u);
    BuiltMentions(p);
  }

  /**
   * `New` validates nothing: whatever the URLs (empty, or ending in '/' so
   * that the project name is empty) and whatever the options, no error comes
   * back; an empty name gives the empty document, still without an error.
   */
  lemma NoValidation(projectUrl: string, issueTrackerUrl: string, opts: seq<ContributingOption>)
    ensures Composed(projectUrl, issueTrackerUrl, opts).1 == None
    ensures Composed(projectUrl, issueTrackerUrl, [WithName("")]) == (EmptyDocument(), None)
    ensures ProjectName("https://github.com/") == ""
  {
    ComposedOutcome(projectUrl, issueTrackerUrl, opts);
    var p := Defaults(projectUrl, issueTrackerUrl);
    ConfiguredOne(p, WithName(""));
    ComposedOutcome(projectUrl, issueTrackerUrl, [WithName("")]);
    BuiltContributing(p.(name := ""));
    ProjectNameCases("https://github.com/");
  }
}
