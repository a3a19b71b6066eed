/**
 * The generic option machinery of pkg/helpers/helpers.go: applying options
 * (each possibly followed by a post-effect), building a section from content
 * functions, and building a document from appliers.
 *
 * Go hands `&props` and `&document` to closures that mutate them. Dafny
 * closures are pure, so here an option is a function from the current
 * properties to the updated properties (or an error), and the loops in
 * ApplyOptions, SectionFactory and DocumentBuilder reassign a local variable
 * where Go mutates through `&props` or `&document`.
 */
module Helpers {
  import opened Wrappers
  import opened DoYouCompute

  /** `PostEffect[T]`: runs right after the option that returned it. */
  type PostEffect<!T, E> = T -> Result<T, E>

  /** `OptionsFunc[T]`: mutates the properties and may return a post-effect. */
  type OptionsFunc<!T, E> = T -> Result<(T, Option<PostEffect<T, E>>), E>

  /** `ContentFunc`: writes content into a section and returns it. */
  type ContentFunc = Section -> Section

  /** `DocumentApplier`: mutates a document and reports an error (which DocumentBuilder ignores). */
  type DocumentApplier<E> = Document -> (Document, Option<E>)

  // ---------------------------------------------------------------- options

  /** One iteration of ApplyOptions: the option, then its post-effect if it returned one. */
  function Step<T, E>(props: T, opt: OptionsFunc<T, E>): Result<T, E>
  {
    match opt(props)
    case Failure(e) => Failure(e)
    case Success((p, effect)) =>
      match effect
      case None => Success(p)
      case Some(pe) => pe(p)
  }

  /** What ApplyOptions computes: the options in list order, stopping at the first error. */
  function Applied<T, E>(props: T, opts: seq<OptionsFunc<T, E>>): Result<T, E>
    decreases |opts|
  {
    if opts == [] then Success(props)
    else
      match Step(props, opts[0])
      case Failure(e) => Failure(e)
      case Success(p) => Applied(p, opts[1..])
  }

  method ApplyOptions<T, E>(props: T, opts: seq<OptionsFunc<T, E>>) returns (r: Result<T, E>)
    ensures r == Applied(props, opts)
    ensures opts == [] ==> r == Success(props)
  {
    var p := props;
    var i := 0;
    while i < |opts|
      invariant 0 <= i <= |opts|
      invariant Applied(props, opts) == Applied(p, opts[i..])
    {
      assert opts[i..][0] == opts[i] && opts[i..][1..] == opts[i + 1..];
      var res := opts[i](p);
      if res.Failure? {
        return Failure(res.error);
      }
      var (q, postEffect) := res.value;
      p := q;
      if postEffect.Some? {
        var after := postEffect.value(p);
        if after.Failure? {
          return Failure(after.error);
        }
        p := after.value;
      }
      i := i + 1;
    }
    return Success(p);
  }

  /** Options compose: applying `a + b` is applying `a`, then `b` to its result. */
  lemma {:induction false} AppliedAppend<T, E>(props: T, a: seq<OptionsFunc<T, E>>, b: seq<OptionsFunc<T, E>>)
    decreases |a|
    ensures Applied(props, a + b) ==
            match Applied(props, a)
            case Failure(e) => Failure(e)
            case Success(p) => Applied(p, b)
  {
    if a != [] {
      assert (a + b)[0] == a[0] && (a + b)[1..] == a[1..] + b;
      match Step(props, a[0])
      case Failure(e) =>
      case Success(p) => AppliedAppend(p, a[1..], b);
    } else {
      assert a + b == b;
    }
  }

  /**
   * Option k runs on the properties left by options 0..k-1; an error of the
   * option or of its post-effect is the result, and nothing after it runs;
   * otherwise its post-effect runs before option k+1.
   */
  lemma AppliedAt<T, E>(props: T, opts: seq<OptionsFunc<T, E>>, k: nat, q: T)
    requires k < |opts| && Applied(props, opts[..k]) == Success(q)
    ensures opts[k](q).Failure? ==> Applied(props, opts) == Failure(opts[k](q).error)
    ensures opts[k](q).Success? && opts[k](q).value.1.None? ==>
              Applied(props, opts) == Applied(opts[k](q).value.0, opts[k + 1..])
    ensures opts[k](q).Success? && opts[k](q).value.1.Some? ==>
              var after := opts[k](q).value.1.value(opts[k](q).value.0);
              Applied(props, opts) == if after.Failure? then Failure(after.error) else Applied(after.value, opts[k + 1..])
  {
    assert opts == opts[..k] + opts[k..];
    AppliedAppend(props, opts[..k], opts[k..]);
    assert opts[k..][0] == opts[k] && opts[k..][1..] == opts[k + 1..];
  }

  /** Fail-fast: once a prefix of the options fails, no later option changes the outcome. */
  lemma AppliedFailFast<T, E>(props: T, opts: seq<OptionsFunc<T, E>>, rest: seq<OptionsFunc<T, E>>, e: E)
    requires Applied(props, opts) == Failure(e)
    ensures Applied(props, opts + rest) == Failure(e)
  {
    AppliedAppend(props, opts, rest);
  }

  // --------------------------------------------------------------- sections

  /** What SectionFactory computes: the content functions applied left to right. */
  function Written(s: Section, fs: seq<ContentFunc>): Section
    decreases |fs|
  {
    if fs == [] then s else Written(fs[0](s), fs[1..])
  }

  /** The section SectionFactory returns, for use in functions. */
  function Factory(name: string, fs: seq<ContentFunc>): Section
  {
    Written(NewSection(name), fs)
  }

  method SectionFactory(name: string, fs: seq<ContentFunc>) returns (s: Section)
    ensures s == Factory(name, fs)
    ensures fs == [] ==> s == NewSection(name)
  {
    s := NewSection(name);
    var i := 0;
    while i < |fs|
      invariant 0 <= i <= |fs|
      invariant Factory(name, fs) == Written(s, fs[i..])
    {
      assert fs[i..][0] == fs[i] && fs[i..][1..] == fs[i + 1..];
      s := fs[i](s);
      i := i + 1;
    }
  }

  /** With a single content function, the section is that function applied to a fresh section. */
  lemma FactoryOne(name: string, f: ContentFunc)
    ensures Factory(name, [f]) == f(NewSection(name))
  {
    assert [f][0] == f && [f][1..] == [];
    assert Written(NewSection(name), [f]) == Written(f(NewSection(name)), []);
  }

  /** Each content function receives the output of the ones before it. */
  lemma {:induction false} WrittenSnoc(s: Section, fs: seq<ContentFunc>, f: ContentFunc)
    ensures Written(s, fs + [f]) == f(Written(s, fs))
    decreases |fs|
  {
    if fs != [] {
      assert (fs + [f])[0] == fs[0] && (fs + [f])[1..] == fs[1..] + [f];
      WrittenSnoc(fs[0](s), fs[1..], f);
    }
  }

  // -------------------------------------------------------------- documents

  /** The appliers run in order on the document; their error results are dropped. */
  function Applies<E>(d: Document, appliers: seq<DocumentApplier<E>>): Document
    decreases |appliers|
  {
    if appliers == [] then d else Applies(appliers[0](d).0, appliers[1..])
  }

  /** What DocumentBuilder returns: the empty document when NewDocument fails. */
  function Built<E>(name: string, appliers: seq<DocumentApplier<E>>): Document
  {
    match NewDocument(name)
    case None => EmptyDocument()
    case Some(d) => Applies(d, appliers)
  }

  method DocumentBuilder<E>(name: string, appliers: seq<DocumentApplier<E>>) returns (doc: Document, err: Option<E>)
    ensures err == None
    ensures doc == Built(name, appliers)
    ensures NewDocument(name).None? ==> doc == EmptyDocument()
  {
    var created := NewDocument(name);
    if created.None? {
      return EmptyDocument(), None;
    }
    doc := created.value;
    var i := 0;
    while i < |appliers|
      invariant 0 <= i <= |appliers|
      invariant Built(name, appliers) == Applies(doc, appliers[i..])
    {
      assert appliers[i..][0] == appliers[i] && appliers[i..][1..] == appliers[i + 1..];
      var (next, _) := appliers[i](doc);
      doc := next;
      i := i + 1;
    }
    err := None;
  }

  /** The appliers' error results have no influence on the document built. */
  lemma {:induction false} AppliesIgnoresErrors<E>(d: Document, a: seq<DocumentApplier<E>>, b: seq<DocumentApplier<E>>)
    requires |a| == |b|
    requires forall i, x :: 0 <= i < |a| ==> a[i](x).0 == b[i](x).0
    ensures Applies(d, a) == Applies(d, b)
    decreases |a|
  {
    if a != [] {
      assert a[0](d).0 == b[0](d).0;
      AppliesIgnoresErrors(a[0](d).0, a[1..], b[1..]);
    }
  }

  // ------------------------------------------------- last writer wins

  function Map<A, B>(f: A -> B, s: seq<A>): (r: seq<B>)
    ensures |r| == |s| && forall i :: 0 <= i < |s| ==> r[i] == f(s[i])
  {
    seq(|s|, i requires 0 <= i < |s| => f(s[i]))
  }

  /**
   * The value a field ends up with when every option in `os` either writes a
   * value to it (`w(o) == Some(v)`) or leaves it alone (`w(o) == None`),
   * starting from `d`.
   */
  function Last<O, X>(os: seq<O>, w: O -> Option<X>, d: X): X
    decreases |os|
  {
    if os == [] then d
    else Last(os[1..], w, if w(os[0]).Some? then w(os[0]).value else d)
  }

  /** A single option writes the field or leaves it. */
  lemma LastOne<O, X>(o: O, w: O -> Option<X>, d: X)
    ensures Last([o], w, d) == if w(o).Some? then w(o).value else d
  {
    assert [o][1..] == [];
  }

  /** The options after the first continue from the value the first one left. */
  lemma LastCons<O, X>(o: O, rest: seq<O>, w: O -> Option<X>, d: X)
    ensures Last([o] + rest, w, d) == Last(rest, w, Last([o], w, d))
  {
    assert ([o] + rest)[0] == o && ([o] + rest)[1..] == rest;
    LastOne(o, w, d);
  }

  /** Last writer wins: a writing option at the end decides the field; one that does not write leaves it. */
  lemma {:induction false} LastSnoc<O, X>(os: seq<O>, o: O, w: O -> Option<X>, d: X)
    ensures Last(os + [o], w, d) == if w(o).Some? then w(o).value else Last(os, w, d)
  {
    if os != [] {
      assert (os + [o])[0] == os[0] && (os + [o])[1..] == os[1..] + [o];
      LastSnoc(os[1..], o, w, if w(os[0]).Some? then w(os[0]).value else d);
    }
  }

  /** Options that never write a field leave it at its starting value. */
  lemma {:induction false} LastUntouched<O, X>(os: seq<O>, w: O -> Option<X>, d: X)
    requires forall i :: 0 <= i < |os| ==> w(os[i]).None?
    ensures Last(os, w, d) == d
  {
    if os != [] {
      LastUntouched(os[1..], w, d);
    }
  }
}
