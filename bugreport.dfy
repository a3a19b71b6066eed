/**
 * The bug report template of pkg/bugreport/bugreport.go: a GitHub issue
 * template with frontmatter and six sections.
 *
 * bugreport.go calls `doyoucompute.ApplyOptions`, `doyoucompute.SectionFactory`
 * and `doyoucompute.DocumentFactory`, whose source is not part of this model;
 * they are assumed to behave as their helpers.go counterparts, and the model
 * uses those.
 */
module BugReport {
  import opened Wrappers
  import opened DoYouCompute
  import Helpers

  const DefaultName: string := "Bug Report"
  const EmptyNameError: string := "bug report name cannot be empty"

  datatype Props = Props(
    name: string,
    frontmatter: Frontmatter,
    expectedBehavior: Section,
    actualBehavior: Section,
    environmentDetails: Section,
    reproductionSteps: Section,
    codeSamples: Section,
    errors: Section)

  /** One constructor per `With*` option of the template. */
  datatype BugReportOption =
    | WithFrontMatter(frontmatter: Frontmatter)
    | WithExpectedBehavior(section: Section)
    | WithActualBehavior(section: Section)
    | WithEnvironmentDetails(section: Section)
    | WithReproductionSteps(section: Section)
    | WithCodeSamples(section: Section)
    | WithErrorDetails(section: Section)
    | WithName(name: string)

  /** The issue-template frontmatter for a report called `name`. */
  function FrontmatterFor(name: string): (f: Frontmatter)
    ensures f.Keys == {"name", "about", "title", "labels", "assignees"}
    ensures f["name"] == name && f["about"] == "Report a bug"
    ensures f["title"] == "" && f["labels"] == "" && f["assignees"] == ""
  {
    map["name" := name, "about" := "Report a bug", "title" := "", "labels" := "", "assignees" := ""]
  }

  function DefaultFrontMatter(): (f: Frontmatter)
    ensures f.Keys == {"name", "about", "title", "labels", "assignees"}
    ensures f["name"] == "Bug Report" && f["about"] == "Report a bug"
    ensures f["title"] == "" && f["labels"] == "" && f["assignees"] == ""
  {
    FrontmatterFor(DefaultName)
  }

  /** A section closure that writes one comment (or, for the steps, one list). */
  function CommentContent(s: Section): (r: Section)
    ensures r.name == s.name && |r.body| == |s.body| + 1 && Mentions(r) == Mentions(s)
  {
    WriteMentions(s, Prose);
    Write(s, Prose)
  }

  /** The code-samples closure: a comment, then a code block. */
  function CodeSamplesContent(s: Section): (r: Section)
    ensures r.name == s.name && |r.body| == |s.body| + 2 && Mentions(r) == Mentions(s)
  {
    WriteMentions(s, Prose);
    WriteMentions(Write(s, Prose), Prose);
    Write(Write(s, Prose), Prose)
  }

  function DefaultExpectedBehavior(): (s: Section)
    ensures s.name == "Expected behavior" && |s.body| == 1 && Mentions(s) == {}
  {
    Helpers.FactoryOne("Expected behavior", (s: Section) => CommentContent(s));
    Helpers.Factory("Expected behavior", [(s: Section) => CommentContent(s)])
  }

  function DefaultActualBehavior(): (s: Section)
    ensures s.name == "Actual behavior" && |s.body| == 1 && Mentions(s) == {}
  {
    Helpers.FactoryOne("Actual behavior", (s: Section) => CommentContent(s));
    Helpers.Factory("Actual behavior", [(s: Section) => CommentContent(s)])
  }

  function DefaultEnvironmentDetails(): (s: Section)
    ensures s.name == "Environment details" && |s.body| == 1 && Mentions(s) == {}
  {
    Helpers.FactoryOne("Environment details", (s: Section) => CommentContent(s));
    Helpers.Factory("Environment details", [(s: Section) => CommentContent(s)])
  }

  function DefaultCodeSamples(): (s: Section)
    ensures s.name == "Code Samples" && |s.body| == 2 && Mentions(s) == {}
  {
    Helpers.FactoryOne("Code Samples", (s: Section) => CodeSamplesContent(s));
    Helpers.Factory("Code Samples", [(s: Section) => CodeSamplesContent(s)])
  }

  function DefaultErrorMessages(): (s: Section)
    ensures s.name == "Error Messages" && |s.body| == 1 && Mentions(s) == {}
  {
    Helpers.FactoryOne("Error Messages", (s: Section) => CommentContent(s));
    Helpers.Factory("Error Messages", [(s: Section) => CommentContent(s)])
  }

  function DefaultStepsToReproduce(): (s: Section)
    ensures s.name == "Steps to reproduce" && |s.body| == 1 && Mentions(s) == {}
  {
    Helpers.FactoryOne("Steps to reproduce", (s: Section) => CommentContent(s));
    Helpers.Factory("Steps to reproduce", [(s: Section) => CommentContent(s)])
  }

  /** The properties `New` starts from. */
  function Defaults(): (r: Props)
    ensures r.name == "Bug Report" && r.frontmatter == FrontmatterFor("Bug Report")
    ensures [r.expectedBehavior.name, r.actualBehavior.name, r.environmentDetails.name,
             r.reproductionSteps.name, r.codeSamples.name, r.errors.name] ==
            ["Expected behavior", "Actual behavior", "Environment details",
             "Steps to reproduce", "Code Samples", "Error Messages"]
  {
    Props(DefaultName, DefaultFrontMatter(), DefaultExpectedBehavior(), DefaultActualBehavior(),
          DefaultEnvironmentDetails(), DefaultStepsToReproduce(), DefaultCodeSamples(), DefaultErrorMessages())
  }

  /** `WithName`'s post-effect: rebuilds the frontmatter from the name the option was given. */
  function FrontmatterFinalizer(name: string): (pe: Helpers.PostEffect<Props, string>)
    ensures forall p: Props :: pe(p).Success?
    ensures forall p: Props :: pe(p).value.frontmatter == FrontmatterFor(name)
    ensures forall p: Props :: pe(p).value.(frontmatter := p.frontmatter) == p
  {
    (p: Props) => Success(p.(frontmatter := FrontmatterFor(name)))
  }

  /** The closure each `With*` function returns: it never fails, and only `WithName` returns a post-effect. */
  function Func(o: BugReportOption): (f: Helpers.OptionsFunc<Props, string>)
    ensures forall p: Props :: f(p).Success?
    ensures forall p: Props :: f(p).value.1.Some? <==> o.WithName?
  {
    match o
    case WithFrontMatter(f) => (p: Props) => Success((p.(frontmatter := f), None))
    case WithExpectedBehavior(s) => (p: Props) => Success((p.(expectedBehavior := s), None))
    case WithActualBehavior(s) => (p: Props) => Success((p.(actualBehavior := s), None))
    case WithEnvironmentDetails(s) => (p: Props) => Success((p.(environmentDetails := s), None))
    case WithReproductionSteps(s) => (p: Props) => Success((p.(reproductionSteps := s), None))
    case WithCodeSamples(s) => (p: Props) => Success((p.(codeSamples := s), None))
    case WithErrorDetails(s) => (p: Props) => Success((p.(errors := s), None))
    case WithName(n) => (p: Props) => Success((p.(name := n), Some(FrontmatterFinalizer(n))))
  }

  function Funcs(opts: seq<BugReportOption>): seq<Helpers.OptionsFunc<Props, string>>
  {
    Helpers.Map(Func, opts)
  }

  // What each option writes, field by field (None: leaves the field alone).

  function NameWrite(o: BugReportOption): Option<string>
  {
    if o.WithName? then Some(o.name) else None
  }

  function FrontmatterWrite(o: BugReportOption): Option<Frontmatter>
  {
    match o
    case WithFrontMatter(f) => Some(f)
    case WithName(n) => Some(FrontmatterFor(n))
    case _ => None
  }

  function ExpectedWrite(o: BugReportOption): Option<Section>
  {
    if o.WithExpectedBehavior? then Some(o.section) else None
  }

  function ActualWrite(o: BugReportOption): Option<Section>
  {
    if o.WithActualBehavior? then Some(o.section) else None
  }

  function EnvironmentWrite(o: BugReportOption): Option<Section>
  {
    if o.WithEnvironmentDetails? then Some(o.section) else None
  }

  function ReproductionWrite(o: BugReportOption): Option<Section>
  {
    if o.WithReproductionSteps? then Some(o.section) else None
  }

  function CodeSamplesWrite(o: BugReportOption): Option<Section>
  {
    if o.WithCodeSamples? then Some(o.section) else None
  }

  function ErrorsWrite(o: BugReportOption): Option<Section>
  {
    if o.WithErrorDetails? then Some(o.section) else None
  }

  /** Reference semantics of a list of options: every field holds the value of its last writer. */
  function Configured(p: Props, opts: seq<BugReportOption>): Props
  {
    Props(
      Helpers.Last(opts, NameWrite, p.name),
      Helpers.Last(opts, FrontmatterWrite, p.frontmatter),
      Helpers.Last(opts, ExpectedWrite, p.expectedBehavior),
      Helpers.Last(opts, ActualWrite, p.actualBehavior),
      Helpers.Last(opts, EnvironmentWrite, p.environmentDetails),
      Helpers.Last(opts, ReproductionWrite, p.reproductionSteps),
      Helpers.Last(opts, CodeSamplesWrite, p.codeSamples),
      Helpers.Last(opts, ErrorsWrite, p.errors))
  }

  /** The body of the applier `New` hands to the document factory. */
  function Attach(d: Document, p: Props): Document
  {
    AddSection(AddSection(AddSection(AddSection(AddSection(AddSection(
      AddFrontmatter(d, p.frontmatter),
      p.expectedBehavior), p.actualBehavior), p.environmentDetails),
      p.reproductionSteps), p.codeSamples), p.errors)
  }

  function Appliers(p: Props): seq<Helpers.DocumentApplier<string>>
  {
    [d => (Attach(d, p), None)]
  }

  /** What `New` returns. */
  function Composed(opts: seq<BugReportOption>): (Document, Option<string>)
  {
    match Helpers.Applied(Defaults(), Funcs(opts))
    case Failure(e) => (EmptyDocument(), Some(e))
    case Success(p) =>
      if p.name == "" then (EmptyDocument(), Some(EmptyNameError))
      else (Helpers.Built(p.name, Appliers(p)), None)
  }

  method New(opts: seq<BugReportOption>) returns (doc: Document, err: Option<string>)
    ensures (doc, err) == Composed(opts)
  {
    var props := Defaults();
    var applied := Helpers.ApplyOptions(props, Funcs(opts));
    if applied.Failure? {
      return EmptyDocument(), Some(applied.error);
    }
    props := applied.value;
    if props.name == "" {
      return EmptyDocument(), Some(EmptyNameError);
    }
    doc, err := Helpers.DocumentBuilder(props.name, Appliers(props));
  }

  // ---------------------------------------------------------------- lemmas

  /** A single option, field by field. */
  lemma ConfiguredOne(p: Props, o: BugReportOption)
    ensures Configured(p, [o]) == Props(
      if NameWrite(o).Some? then NameWrite(o).value else p.name,
      if FrontmatterWrite(o).Some? then FrontmatterWrite(o).value else p.frontmatter,
      if ExpectedWrite(o).Some? then ExpectedWrite(o).value else p.expectedBehavior,
      if ActualWrite(o).Some? then ActualWrite(o).value else p.actualBehavior,
      if EnvironmentWrite(o).Some? then EnvironmentWrite(o).value else p.environmentDetails,
      if ReproductionWrite(o).Some? then ReproductionWrite(o).value else p.reproductionSteps,
      if CodeSamplesWrite(o).Some? then CodeSamplesWrite(o).value else p.codeSamples,
      if ErrorsWrite(o).Some? then ErrorsWrite(o).value else p.errors)
  {
    Helpers.LastOne(o, NameWrite, p.name);
    Helpers.LastOne(o, FrontmatterWrite, p.frontmatter);
    Helpers.LastOne(o, ExpectedWrite, p.expectedBehavior);
    Helpers.LastOne(o, ActualWrite, p.actualBehavior);
    Helpers.LastOne(o, EnvironmentWrite, p.environmentDetails);
    Helpers.LastOne(o, ReproductionWrite, p.reproductionSteps);
    Helpers.LastOne(o, CodeSamplesWrite, p.codeSamples);
    Helpers.LastOne(o, ErrorsWrite, p.errors);
  }

  /** One option, run through the generic loop, has exactly its reference effect. */
  lemma StepIsConfigured(p: Props, o: BugReportOption)
    ensures Helpers.Step(p, Func(o)) == Success(Configured(p, [o]))
  {
    ConfiguredOne(p, o);
  }

  lemma ConfiguredCons(p: Props, o: BugReportOption, rest: seq<BugReportOption>)
    ensures Configured(Configured(p, [o]), rest) == Configured(p, [o] + rest)
  {
    Helpers.LastCons(o, rest, NameWrite, p.name);
    Helpers.LastCons(o, rest, FrontmatterWrite, p.frontmatter);
    Helpers.LastCons(o, rest, ExpectedWrite, p.expectedBehavior);
    Helpers.LastCons(o, rest, ActualWrite, p.actualBehavior);
    Helpers.LastCons(o, rest, EnvironmentWrite, p.environmentDetails);
    Helpers.LastCons(o, rest, ReproductionWrite, p.reproductionSteps);
    Helpers.LastCons(o, rest, CodeSamplesWrite, p.codeSamples);
    Helpers.LastCons(o, rest, ErrorsWrite, p.errors);
  }

  /** The options never fail, and applying them yields the last-writer-wins properties. */
  lemma {:induction false} AppliedIsConfigured(p: Props, opts: seq<BugReportOption>)
    ensures Helpers.Applied(p, Funcs(opts)) == Success(Configured(p, opts))
    decreases |opts|
  {
    if opts == [] {
    } else {
      var o := opts[0];
      assert opts == [o] + opts[1..];
      assert Funcs(opts)[0] == Func(o) && Funcs(opts)[1..] == Funcs(opts[1..]);
      StepIsConfigured(p, o);
      AppliedIsConfigured(Configured(p, [o]), opts[1..]);
      ConfiguredCons(p, o, opts[1..]);
    }
  }

  /**
   * `New` fails exactly when the final name is empty, with the template's
   * message; otherwise the document carries the final name and frontmatter
   * and exactly six sections in a fixed order, whatever the order of the options.
   */
  lemma ComposedOutcome(opts: seq<BugReportOption>)
    ensures var p := Configured(Defaults(), opts);
      && (Composed(opts).1.None? <==> p.name != "")
      && (p.name == "" ==> Composed(opts) == (EmptyDocument(), Some(EmptyNameError)))
      && (p.name != "" ==>
            Composed(opts).0 == Document(p.name, Some(p.frontmatter), None,
              [p.expectedBehavior, p.actualBehavior, p.environmentDetails,
               p.reproductionSteps, p.codeSamples, p.errors]))
  {
    var p := Configured(Defaults(), opts);
    AppliedIsConfigured(Defaults(), opts);
    if p.name != "" {
      BuiltReport(p);
    }
  }

  lemma BuiltReport(p: Props)
    requires p.name != ""
    ensures Helpers.Built(p.name, Appliers(p)) ==
            Document(p.name, Some(p.frontmatter), None,
              [p.expectedBehavior, p.actualBehavior, p.environmentDetails,
               p.reproductionSteps, p.codeSamples, p.errors])
  {
    var d := Document(p.name, None, None, []);
    assert Appliers(p)[1..] == [];
    assert Helpers.Built(p.name, Appliers(p)) == Attach(d, p);
  }

  /** With no options: the default name, the default frontmatter and the six default sections. */
  lemma DefaultReport()
    ensures Composed([]).1 == None
    ensures Composed([]).0.name == "Bug Report"
    ensures Composed([]).0.frontmatter == Some(map["name" := "Bug Report", "about" := "Report a bug",
                                                   "title" := "", "labels" := "", "assignees" := ""])
    ensures Names(Composed([]).0.content) ==
            ["Expected behavior", "Actual behavior", "Environment details",
             "Steps to reproduce", "Code Samples", "Error Messages"]
  {
    ComposedOutcome([]);
  }

  /** `WithName(n)` sets the name, and its post-effect replaces the frontmatter with that of `n`. */
  lemma WithNameRewritesFrontmatter(p: Props, n: string)
    ensures Helpers.Step(p, Func(WithName(n))) == Success(p.(name := n, frontmatter := FrontmatterFor(n)))
    ensures Configured(p, [WithName(n)]) == p.(name := n, frontmatter := FrontmatterFor(n))
  {
    StepIsConfigured(p, WithName(n));
  }

  /** A frontmatter set before `WithName` is discarded; one set after it is kept. */
  lemma FrontmatterOrder(p: Props, f: Frontmatter, n: string)
    ensures Configured(p, [WithFrontMatter(f), WithName(n)]).frontmatter == FrontmatterFor(n)
    ensures Configured(p, [WithName(n), WithFrontMatter(f)]).frontmatter == f
    ensures Configured(p, [WithName(n), WithFrontMatter(f)]).name == n
  {
    Helpers.LastSnoc([WithFrontMatter(f)], WithName(n), FrontmatterWrite, p.frontmatter);
    assert [WithFrontMatter(f)] + [WithName(n)] == [WithFrontMatter(f), WithName(n)];
    Helpers.LastSnoc([WithName(n)], WithFrontMatter(f), FrontmatterWrite, p.frontmatter);
    assert [WithName(n)] + [WithFrontMatter(f)] == [WithName(n), WithFrontMatter(f)];
    Helpers.LastSnoc([WithName(n)], WithFrontMatter(f), NameWrite, p.name);
  }

  /** Each section option replaces its own section and nothing else. */
  lemma SectionOptionsReplaceOwnField(p: Props, s: Section)
    ensures Configured(p, [WithExpectedBehavior(s)]) == p.(expectedBehavior := s)
    ensures Configured(p, [WithActualBehavior(s)]) == p.(actualBehavior := s)
    ensures Configured(p, [WithEnvironmentDetails(s)]) == p.(environmentDetails := s)
    ensures Configured(p, [WithReproductionSteps(s)]) == p.(reproductionSteps := s)
    ensures Configured(p, [WithCodeSamples(s)]) == p.(codeSamples := s)
    ensures Configured(p, [WithErrorDetails(s)]) == p.(errors := s)
  {
    ConfiguredOne(p, WithExpectedBehavior(s));
    ConfiguredOne(p, WithActualBehavior(s));
    ConfiguredOne(p, WithEnvironmentDetails(s));
    ConfiguredOne(p, WithReproductionSteps(s));
    ConfiguredOne(p, WithCodeSamples(s));
    ConfiguredOne(p, WithErrorDetails(s));
  }

  /** A trailing `WithName(n)` decides both the name and the frontmatter, whatever came before. */
  lemma LastNameWins(p: Props, opts: seq<BugReportOption>, n: string)
    ensures Configured(p, opts + [WithName(n)]).name == n
    ensures Configured(p, opts + [WithName(n)]).frontmatter == FrontmatterFor(n)
  {
    Helpers.LastSnoc(opts, WithName(n), NameWrite, p.name);
    Helpers.LastSnoc(opts, WithName(n), FrontmatterWrite, p.frontmatter);
  }
}
