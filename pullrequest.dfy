/** The pull request template of pkg/pullrequest/pullrequest.go: a name and three sections. */
module PullRequest {
  import opened Wrappers
  import opened DoYouCompute
  import Helpers

  const EmptyNameError: string := "pull request name cannot be empty"

  datatype Props = Props(
    name: string,
    description: Section,
    relatedIssue: Section,
    testing: Section)

  /** One constructor per `With*` option of the template. */
  datatype PullRequestOption =
    | WithName(name: string)
    | WithDescription(section: Section)
    | WithRelatedIssue(section: Section)
    | WithTesting(section: Section)

  function DefaultName(): (n: string)
    ensures n == "Pull Request"
  {
    "Pull Request"
  }

  function DefaultDescription(): (s: Section)
    ensures s.name == "Description" && |s.body| == 1 && Mentions(s) == {}
  {
    Helpers.FactoryOne("Description", s => Write(s, Prose));
    WriteMentions(NewSection("Description"), Prose);
    Helpers.Factory("Description", [s => Write(s, Prose)])
  }

  function DefaultRelatedIssue(): (s: Section)
    ensures s.name == "Related issue" && |s.body| == 1 && Mentions(s) == {}
  {
    Helpers.FactoryOne("Related issue", s => Write(s, Prose));
    WriteMentions(NewSection("Related issue"), Prose);
    Helpers.Factory("Related issue", [s => Write(s, Prose)])
  }

  function DefaultTesting(): (s: Section)
    ensures s.name == "How I tested" && |s.body| == 1 && Mentions(s) == {}
  {
    Helpers.FactoryOne("How I tested", s => Write(s, Prose));
    WriteMentions(NewSection("How I tested"), Prose);
    Helpers.Factory("How I tested", [s => Write(s, Prose)])
  }

  /** The properties `New` starts from. */
  function Defaults(): (p: Props)
    ensures p.name == "Pull Request"
    ensures p.description == DefaultDescription() && p.relatedIssue == DefaultRelatedIssue() && p.testing == DefaultTesting()
    ensures [p.description.name, p.relatedIssue.name, p.testing.name] == ["Description", "Related issue", "How I tested"]
  {
    Props(DefaultName(), DefaultDescription(), DefaultRelatedIssue(), DefaultTesting())
  }

  /** The closure each `With*` function returns: one field assignment, no post-effect, no error. */
  function Func(o: PullRequestOption): (f: Helpers.OptionsFunc<Props, string>)
    ensures forall p: Props :: f(p).Success? && f(p).value.1.None?
  {
    match o
    case WithName(n) => (p: Props) => Success((p.(name := n), None))
    case WithDescription(s) => (p: Props) => Success((p.(description := s), None))
    case WithRelatedIssue(s) => (p: Props) => Success((p.(relatedIssue := s), None))
    case WithTesting(s) => (p: Props) => Success((p.(testing := s), None))
  }

  function Funcs(opts: seq<PullRequestOption>): seq<Helpers.OptionsFunc<Props, string>>
  {
    Helpers.Map(Func, opts)
  }

  // What each option writes, field by field (None: leaves the field alone).

  function NameWrite(o: PullRequestOption): Option<string>
  {
    if o.WithName? then Some(o.name) else None
  }

  function DescriptionWrite(o: PullRequestOption): Option<Section>
  {
    if o.WithDescription? then Some(o.section) else None
  }

  function RelatedIssueWrite(o: PullRequestOption): Option<Section>
  {
    if o.WithRelatedIssue? then Some(o.section) else None
  }

  function TestingWrite(o: PullRequestOption): Option<Section>
  {
    if o.WithTesting? then Some(o.section) else None
  }

  /** Reference semantics of a list of options: every field holds the value of its last writer. */
  function Configured(p: Props, opts: seq<PullRequestOption>): Props
  {
    Props(
      Helpers.Last(opts, NameWrite, p.name),
      Helpers.Last(opts, DescriptionWrite, p.description),
      Helpers.Last(opts, RelatedIssueWrite, p.relatedIssue),
      Helpers.Last(opts, TestingWrite, p.testing))
  }

  /** The body of the applier `New` hands to DocumentBuilder. */
  function Attach(d: Document, p: Props): Document
  {
    AddSection(AddSection(AddSection(d, p.description), p.relatedIssue), p.testing)
  }

  function Appliers(p: Props): seq<Helpers.DocumentApplier<string>>
  {
    [d => (Attach(d, p), None)]
  }

  /** What `New` returns. */
  function Composed(opts: seq<PullRequestOption>): (Document, Option<string>)
  {
    match Helpers.Applied(Defaults(), Funcs(opts))
    case Failure(e) => (EmptyDocument(), Some(e))
    case Success(p) =>
      if p.name == "" then (EmptyDocument(), Some(EmptyNameError))
      else (Helpers.Built(p.name, Appliers(p)), None)
  }

  method New(opts: seq<PullRequestOption>) returns (doc: Document, err: Option<string>)
    ensures (doc, err) == Composed(opts)
  {
    var props := Defaults();
    var applied := Helpers.ApplyOptions(props, Funcs(opts));
    if applied.Failure? {
      return EmptyDocument(), Some(applied.error);
    }
    props := applied.value;
    if props.name == "" {
      return EmptyDocument(), Some(EmptyNameError);
    }
    doc, err := Helpers.DocumentBuilder(props.name, Appliers(props));
  }

  // ---------------------------------------------------------------- lemmas

  /** A single option, field by field. */
  lemma ConfiguredOne(p: Props, o: PullRequestOption)
    ensures Configured(p, [o]) == Props(
      if NameWrite(o).Some? then NameWrite(o).value else p.name,
      if DescriptionWrite(o).Some? then DescriptionWrite(o).value else p.description,
      if RelatedIssueWrite(o).Some? then RelatedIssueWrite(o).value else p.relatedIssue,
      if TestingWrite(o).Some? then TestingWrite(o).value else p.testing)
  {
    Helpers.LastOne(o, NameWrite, p.name);
    Helpers.LastOne(o, DescriptionWrite, p.description);
    Helpers.LastOne(o, RelatedIssueWrite, p.relatedIssue);
    Helpers.LastOne(o, TestingWrite, p.testing);
  }

  /** Each option overwrites exactly one field and nothing else. */
  lemma OptionsOverwriteOneField(p: Props, n: string, s: Section)
    ensures Helpers.Step(p, Func(WithName(n))) == Success(p.(name := n))
    ensures Configured(p, [WithName(n)]) == p.(name := n)
    ensures Configured(p, [WithDescription(s)]) == p.(description := s)
    ensures Configured(p, [WithRelatedIssue(s)]) == p.(relatedIssue := s)
    ensures Configured(p, [WithTesting(s)]) == p.(testing := s)
  {
    ConfiguredOne(p, WithName(n));
    ConfiguredOne(p, WithDescription(s));
    ConfiguredOne(p, WithRelatedIssue(s));
    ConfiguredOne(p, WithTesting(s));
  }

  lemma StepIsConfigured(p: Props, o: PullRequestOption)
    ensures Helpers.Step(p, Func(o)) == Success(Configured(p, [o]))
  {
    ConfiguredOne(p, o);
  }

  lemma ConfiguredCons(p: Props, o: PullRequestOption, rest: seq<PullRequestOption>)
    ensures Configured(Configured(p, [o]), rest) == Configured(p, [o] + rest)
  {
    Helpers.LastCons(o, rest, NameWrite, p.name);
    Helpers.LastCons(o, rest, DescriptionWrite, p.description);
    Helpers.LastCons(o, rest, RelatedIssueWrite, p.relatedIssue);
    Helpers.LastCons(o, rest, TestingWrite, p.testing);
  }

  /** The options never fail, and applying them yields the last-writer-wins properties. */
  lemma {:induction false} AppliedIsConfigured(p: Props, opts: seq<PullRequestOption>)
    ensures Helpers.Applied(p, Funcs(opts)) == Success(Configured(p, opts))
    decreases |opts|
  {
    if opts != [] {
      var o := opts[0];
      assert opts == [o] + opts[1..];
      assert Funcs(opts)[0] == Func(o) && Funcs(opts)[1..] == Funcs(opts[1..]);
      StepIsConfigured(p, o);
      AppliedIsConfigured(Configured(p, [o]), opts[1..]);
      ConfiguredCons(p, o, opts[1..]);
    }
  }

  lemma BuiltPullRequest(p: Props)
    requires p.name != ""
    ensures Helpers.Built(p.name, Appliers(p)) ==
            Document(p.name, None, None, [p.description, p.relatedIssue, p.testing])
  {
    assert Appliers(p)[1..] == [];
    assert Helpers.Built(p.name, Appliers(p)) == Attach(Document(p.name, None, None, []), p);
  }

  /**
   * `New` errors if and only if the final name is empty, with the template's
   * message; otherwise the document has the final name and exactly three
   * sections in a fixed order, whatever the options.
   */
  lemma ComposedOutcome(opts: seq<PullRequestOption>)
    ensures var p := Configured(Defaults(), opts);
      && (Composed(opts).1.None? <==> p.name != "")
      && (p.name == "" ==> Composed(opts) == (EmptyDocument(), Some(EmptyNameError)))
      && (p.name != "" ==>
            Composed(opts).0 == Document(p.name, None, None, [p.description, p.relatedIssue, p.testing]))
  {
    var p := Configured(Defaults(), opts);
    AppliedIsConfigured(Defaults(), opts);
    if p.name != "" {
      BuiltPullRequest(p);
    }
  }

  /** With no options: "Pull Request" and the sections "Description", "Related issue", "How I tested". */
  lemma DefaultPullRequest()
    ensures Composed([]).1 == None
    ensures Composed([]).0.name == "Pull Request"
    ensures Composed([]).0.frontmatter == None
    ensures Names(Composed([]).0.content) == ["Description", "Related issue", "How I tested"]
  {
    ComposedOutcome([]);
  }

  /** With repeated `WithName` options the last one is the name. */
  lemma LastNameWins(opts: seq<PullRequestOption>, n: string)
    requires n != ""
    ensures Composed(opts + [WithName(n)]).1 == None
    ensures Composed(opts + [WithName(n)]).0.name == n
  {
    Helpers.LastSnoc(opts, WithName(n), NameWrite, DefaultName());
    ComposedOutcome(opts + [WithName(n)]);
  }
}
