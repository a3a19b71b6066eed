/**
 * The README template of pkg/readme/readme.go: caller-supplied name, intro,
 * features and quick-start sections, any additional sections, and a
 * contributing and a license section that always come last.
 *
 * readme.go calls `doyoucompute.ApplyOptions`, `doyoucompute.SectionFactory`
 * and `doyoucompute.DocumentFactory`, whose source is not part of this model;
 * they are assumed to behave as their helpers.go counterparts, and the model
 * uses those.
 */
module Readme {
  import opened Wrappers
  import opened DoYouCompute
  import Helpers

  const EmptyNameError: string := "readme name cannot be empty"
  const MissingFeaturesError: string := "features section is required"
  const MissingQuickStartError: string := "quick start section is required"
  const EmptyNameAfterOptionsError: string := "readme name cannot be empty after applying options"

  /** `ReadmeProps`; `contributing` and `license` are the unexported fields. */
  datatype ReadmeProps = ReadmeProps(
    Name: string,
    Intro: Paragraph,
    Features: Section,
    QuickStart: Section,
    contributing: Section,
    license: Section)

  /** One constructor per `With*` option of the template. */
  datatype ReadmeOption =
    | WithName(name: string)
    | WithLicense(licenseName: string, path: string)

  function DefaultContributing(): (s: Section)
    ensures s.name == "Contributing"
  {
    Helpers.Factory("Contributing", [s => Write(s, Prose)])
  }

  function DefaultLicense(): (s: Section)
    ensures s.name == "License"
  {
    Helpers.Factory("License", [s => Write(s, Prose)])
  }

  /** The section `WithLicense(name, path)` builds: a "License" intro naming the license and linking `path`. */
  function LicenseFor(name: string, path: string): (s: Section)
    ensures s.name == "License" && Mentions(s) == {name, path}
  {
    var s := Helpers.Factory("License", [s => Write(Write(s, Mention(name)), Mention(path))]);
    WriteMentions(NewSection("License"), Mention(name));
    WriteMentions(Write(NewSection("License"), Mention(name)), Mention(path));
    s
  }

  /** The checks `New` makes before it applies any option, in their order. */
  function Validate(props: ReadmeProps): (r: Option<string>)
    ensures r.None? <==> props.Name != "" && props.Features.name != "" && props.QuickStart.name != ""
  {
    if props.Name == "" then Some(EmptyNameError)
    else if props.Features.name == "" then Some(MissingFeaturesError)
    else if props.QuickStart.name == "" then Some(MissingQuickStartError)
    else None
  }

  /** The properties the options start from: the caller's, with contributing and license reset. */
  function Seeded(props: ReadmeProps): (r: ReadmeProps)
    ensures r.(contributing := props.contributing, license := props.license) == props
    ensures r.contributing == DefaultContributing() && r.license == DefaultLicense()
  {
    ReadmeProps(props.Name, props.Intro, props.Features, props.QuickStart, DefaultContributing(), DefaultLicense())
  }

  /** The closure each `With*` function returns: it never fails and returns no post-effect. */
  function Func(o: ReadmeOption): (f: Helpers.OptionsFunc<ReadmeProps, string>)
    ensures forall p: ReadmeProps :: f(p).Success? && f(p).value.1.None?
  {
    match o
    case WithName(n) => (p: ReadmeProps) => Success((p.(Name := n), None))
    case WithLicense(n, path) => (p: ReadmeProps) => Success((p.(license := LicenseFor(n, path)), None))
  }

  function Funcs(opts: seq<ReadmeOption>): seq<Helpers.OptionsFunc<ReadmeProps, string>>
  {
    Helpers.Map(Func, opts)
  }

  function NameWrite(o: ReadmeOption): Option<string>
  {
    if o.WithName? then Some(o.name) else None
  }

  function LicenseWrite(o: ReadmeOption): Option<Section>
  {
    if o.WithLicense? then Some(LicenseFor(o.licenseName, o.path)) else None
  }

  /** Reference semantics of a list of options: the last writer of each field wins; the rest is untouched. */
  function Configured(p: ReadmeProps, opts: seq<ReadmeOption>): ReadmeProps
  {
    ReadmeProps(
      Helpers.Last(opts, NameWrite, p.Name),
      p.Intro, p.Features, p.QuickStart, p.contributing,
      Helpers.Last(opts, LicenseWrite, p.license))
  }

  /** The loop over the additional sections inside the applier. */
  function AddSections(d: Document, ss: seq<Section>): (r: Document)
    ensures r == d.(content := d.content + ss)
    decreases |ss|
  {
    if ss == [] then d
    else
      assert d.content + ss == (d.content + [ss[0]]) + ss[1..];
      AddSections(AddSection(d, ss[0]), ss[1..])
  }

  /** The body of the applier `New` hands to the document factory. */
  function Attach(d: Document, p: ReadmeProps, additional: seq<Section>): Document
  {
    var top := AddSection(AddSection(AddIntro(d, p.Intro), p.Features), p.QuickStart);
    AddSection(AddSection(AddSections(top, additional), p.contributing), p.license)
  }

  function Appliers(p: ReadmeProps, additional: seq<Section>): seq<Helpers.DocumentApplier<string>>
  {
    [d => (Attach(d, p, additional), None)]
  }

  /** What `New` returns. */
  function Composed(props: ReadmeProps, additional: seq<Section>, opts: seq<ReadmeOption>): (Document, Option<string>)
  {
    match Validate(props)
    case Some(e) => (EmptyDocument(), Some(e))
    case None =>
      match Helpers.Applied(Seeded(props), Funcs(opts))
      case Failure(e) => (EmptyDocument(), Some(e))
      case Success(p) =>
        if p.Name == "" then (EmptyDocument(), Some(EmptyNameAfterOptionsError))
        else (Helpers.Built(p.Name, Appliers(p, additional)), None)
  }

  method New(props: ReadmeProps, additional: seq<Section>, opts: seq<ReadmeOption>)
    returns (doc: Document, err: Option<string>)
    ensures (doc, err) == Composed(props, additional, opts)
  {
    if props.Name == "" {
      return EmptyDocument(), Some(EmptyNameError);
    }
    if props.Features.name == "" {
      return EmptyDocument(), Some(MissingFeaturesError);
    }
    if props.QuickStart.name == "" {
      return EmptyDocument(), Some(MissingQuickStartError);
    }
    var sProps := ReadmeProps(props.Name, props.Intro, props.Features, props.QuickStart,
                              DefaultContributing(), DefaultLicense());
    var applied := Helpers.ApplyOptions(sProps, Funcs(opts));
    if applied.Failure? {
      return EmptyDocument(), Some(applied.error);
    }
    sProps := applied.value;
    if sProps.Name == "" {
      return EmptyDocument(), Some(EmptyNameAfterOptionsError);
    }
    doc, err := Helpers.DocumentBuilder(sProps.Name, Appliers(sProps, additional));
  }

  // ---------------------------------------------------------------- lemmas

  lemma ConfiguredOne(p: ReadmeProps, o: ReadmeOption)
    ensures Configured(p, [o]) == ReadmeProps(
      if NameWrite(o).Some? then NameWrite(o).value else p.Name,
      p.Intro, p.Features, p.QuickStart, p.contributing,
      if LicenseWrite(o).Some? then LicenseWrite(o).value else p.license)
  {
    Helpers.LastOne(o, NameWrite, p.Name);
    Helpers.LastOne(o, LicenseWrite, p.license);
  }

  /** `WithName` changes only the name; `WithLicense` replaces only the license section. */
  lemma OptionsChangeOneField(p: ReadmeProps, n: string, license: string, path: string)
    ensures Helpers.Step(p, Func(WithName(n))) == Success(p.(Name := n))
    ensures Configured(p, [WithName(n)]) == p.(Name := n)
    ensures Configured(p, [WithLicense(license, path)]) == p.(license := LicenseFor(license, path))
  {
    ConfiguredOne(p, WithName(n));
    ConfiguredOne(p, WithLicense(license, path));
  }

  lemma StepIsConfigured(p: ReadmeProps, o: ReadmeOption)
    ensures Helpers.Step(p, Func(o)) == Success(Configured(p, [o]))
  {
    ConfiguredOne(p, o);
  }

  lemma ConfiguredCons(p: ReadmeProps, o: ReadmeOption, rest: seq<ReadmeOption>)
    ensures Configured(Configured(p, [o]), rest) == Configured(p, [o] + rest)
  {
    Helpers.LastCons(o, rest, NameWrite, p.Name);
    Helpers.LastCons(o, rest, LicenseWrite, p.license);
  }

  /** The options never fail, and applying them yields the last-writer-wins properties. */
  lemma {:induction false} AppliedIsConfigured(p: ReadmeProps, opts: seq<ReadmeOption>)
    ensures Helpers.Applied(p, Funcs(opts)) == Success(Configured(p, opts))
    decreases |opts|
  {
    if opts != [] {
      var o := opts[0];
      assert opts == [o] + opts[1..];
      assert Funcs(opts)[0] == Func(o) && Funcs(opts)[1..] == Funcs(opts[1..]);
      StepIsConfigured(p, o);
      AppliedIsConfigured(Configured(p, [o]), opts[1..]);
      ConfiguredCons(p, o, opts[1..]);
    }
  }

  /** Whatever the options, the license section is called "License". */
  lemma {:induction false} LicenseNamed(opts: seq<ReadmeOption>, d: Section)
    requires d.name == "License"
    ensures Helpers.Last(opts, LicenseWrite, d).name == "License"
    decreases |opts|
  {
    if opts != [] {
      LicenseNamed(opts[1..], if LicenseWrite(opts[0]).Some? then LicenseWrite(opts[0]).value else d);
    }
  }

  lemma BuiltReadme(p: ReadmeProps, additional: seq<Section>)
    requires p.Name != ""
    ensures Helpers.Built(p.Name, Appliers(p, additional)) ==
            Document(p.Name, None, Some(p.Intro),
                     [p.Features, p.QuickStart] + additional + [p.contributing, p.license])
  {
    assert Appliers(p, additional)[1..] == [];
    assert Helpers.Built(p.Name, Appliers(p, additional)) == Attach(Document(p.Name, None, None, []), p, additional);
  }

  /** `Composed` with the generic option loop replaced by its reference semantics. */
  lemma ComposedIsConfigured(props: ReadmeProps, additional: seq<Section>, opts: seq<ReadmeOption>)
    ensures var p := Configured(Seeded(props), opts);
      Composed(props, additional, opts) ==
        if Validate(props).Some? then (EmptyDocument(), Validate(props))
        else if p.Name == "" then (EmptyDocument(), Some(EmptyNameAfterOptionsError))
        else (Document(p.Name, None, Some(props.Intro),
                       [props.Features, props.QuickStart] + additional + [p.contributing, p.license]), None)
  {
    var p := Configured(Seeded(props), opts);
    AppliedIsConfigured(Seeded(props), opts);
    if Validate(props).None? && p.Name != "" {
      BuiltReadme(p, additional);
    }
  }

  /**
   * The checks before the options run in the order name, features, quick
   * start; then the name is checked again after the options. `New` succeeds
   * exactly when all four pass.
   */
  lemma ComposedErrors(props: ReadmeProps, additional: seq<Section>, opts: seq<ReadmeOption>)
    ensures var r := Composed(props, additional, opts);
            var name := Helpers.Last(opts, NameWrite, props.Name);
      && (props.Name == "" ==> r == (EmptyDocument(), Some(EmptyNameError)))
      && (props.Name != "" && props.Features.name == "" ==> r == (EmptyDocument(), Some(MissingFeaturesError)))
      && (props.Name != "" && props.Features.name != "" && props.QuickStart.name == "" ==>
            r == (EmptyDocument(), Some(MissingQuickStartError)))
      && (Validate(props).None? && name == "" ==> r == (EmptyDocument(), Some(EmptyNameAfterOptionsError)))
      && (r.1.None? <==> Validate(props).None? && name != "")
  {
    ComposedIsConfigured(props, additional, opts);
  }

  /**
   * On success: the final name, the caller's intro, then Features, QuickStart,
   * the additional sections in the given order, the default Contributing and
   * last the License section: 4 + |additional| sections.
   */
  lemma ComposedDocument(props: ReadmeProps, additional: seq<Section>, opts: seq<ReadmeOption>)
    requires Composed(props, additional, opts).1.None?
    ensures var d := Composed(props, additional, opts).0;
      && d == Document(Helpers.Last(opts, NameWrite, props.Name), None, Some(props.Intro),
                       [props.Features, props.QuickStart] + additional +
                       [DefaultContributing(), Helpers.Last(opts, LicenseWrite, DefaultLicense())])
      && |d.content| == 4 + |additional|
      && Names(d.content) == [props.Features.name, props.QuickStart.name] + Names(additional) + ["Contributing", "License"]
  {
    ComposedIsConfigured(props, additional, opts);
    var license := Helpers.Last(opts, LicenseWrite, DefaultLicense());
    LicenseNamed(opts, DefaultLicense());
    var head := [props.Features, props.QuickStart];
    var tail := [DefaultContributing(), license];
    var c := head + additional + tail;
    assert Composed(props, additional, opts).0.content == c;
    DoYouCompute.NamesAppend(head + additional, tail);
    DoYouCompute.NamesAppend(head, additional);
    assert Names(head) == [props.Features.name, props.QuickStart.name];
    assert Names(tail) == ["Contributing", "License"];
  }

  /** The caller's contributing and license sections never reach the document. */
  lemma CallerContributingAndLicenseIgnored(props: ReadmeProps, c: Section, l: Section,
                                            additional: seq<Section>, opts: seq<ReadmeOption>)
    ensures Composed(props.(contributing := c, license := l), additional, opts) == Composed(props, additional, opts)
  {
    assert Seeded(props.(contributing := c, license := l)) == Seeded(props);
  }
}
