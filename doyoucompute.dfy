/**
 * A value model of the parts of the external `doyoucompute` document library
 * that the templates use. Its source is not part of this model: sections,
 * paragraphs, frontmatter and documents are opaque values here, and only the
 * operations the templates call on them are given meaning.
 *
 * Static prose (comments, paragraphs of fixed text, code blocks, lists) is a
 * `Prose` block; a paragraph or code block that embeds a caller-supplied
 * value (a URL, a project name) is a `Mention` of that value; a nested
 * section is a `Sub` block.
 */
module DoYouCompute {
  import opened Wrappers

  datatype Block = Prose | Mention(value: string) | Sub(section: Section)

  datatype Section = Section(name: string, body: seq<Block>)

  datatype Paragraph = Paragraph(body: seq<Block>)

  /** GitHub issue-template frontmatter; every value the templates write is a string. */
  type Frontmatter = map<string, string>

  datatype Document = Document(
    name: string,
    frontmatter: Option<Frontmatter>,
    intro: Option<Paragraph>,
    content: seq<Section>)

  /** `doyoucompute.NewSection(name)`: a section with a title and no content. */
  function NewSection(name: string): (s: Section)
    ensures s.name == name && s.body == []
  {
    Section(name, [])
  }

  /** Appends one block to a section (WriteComment, WriteParagraph, WriteCodeBlock, CreateList, ...). */
  function Write(s: Section, b: Block): (r: Section)
    ensures r.name == s.name && r.body == s.body + [b]
  {
    s.(body := s.body + [b])
  }

  /** `s.AddSection(child)` / `s.CreateSection(name)`: nests a section as the last block of `s`. */
  function AddSubsection(s: Section, child: Section): (r: Section)
    ensures r.name == s.name && r.body == s.body + [Sub(child)]
  {
    Write(s, Sub(child))
  }

  /** Go's zero value `doyoucompute.Document{}`. */
  function EmptyDocument(): Document
  {
    Document("", None, None, [])
  }

  /**
   * `doyoucompute.NewDocument(name)`. Assumption of this model: the library
   * rejects exactly the empty name (its source is not part of this model).
   */
  function NewDocument(name: string): (r: Option<Document>)
    ensures r.None? <==> name == ""
    ensures r.Some? ==> r.value == Document(name, None, None, [])
  {
    if name == "" then None else Some(Document(name, None, None, []))
  }

  /** `d.AddSection(s)`: appends a top-level section. */
  function AddSection(d: Document, s: Section): (r: Document)
    ensures r == d.(content := d.content + [s])
  {
    d.(content := d.content + [s])
  }

  /** `d.AddFrontmatter(f)`. */
  function AddFrontmatter(d: Document, f: Frontmatter): (r: Document)
    ensures r == d.(frontmatter := Some(f))
  {
    d.(frontmatter := Some(f))
  }

  /** `d.AddIntro(&p)`. */
  function AddIntro(d: Document, p: Paragraph): (r: Document)
    ensures r == d.(intro := Some(p))
  {
    d.(intro := Some(p))
  }

  /** The titles of a list of sections, in order. */
  function Names(ss: seq<Section>): (r: seq<string>)
    ensures |r| == |ss| && forall i :: 0 <= i < |ss| ==> r[i] == ss[i].name
  {
    seq(|ss|, i requires 0 <= i < |ss| => ss[i].name)
  }

  lemma NamesAppend(a: seq<Section>, b: seq<Section>)
    ensures Names(a + b) == Names(a) + Names(b)
  {
  }

  /** Every value mentioned anywhere in the first `n` blocks of `s`, nested sections included. */
  function BodyMentions(s: Section, n: nat): set<string>
    requires n <= |s.body|
    decreases s, n
  {
    if n == 0 then {}
    else
      BodyMentions(s, n - 1) +
      match s.body[n - 1]
      case Prose => {}
      case Mention(v) => {v}
      case Sub(c) => BodyMentions(c, |c.body|)
  }

  /** Every value mentioned anywhere in a section tree: what its rendering shows of it. */
  function Mentions(s: Section): set<string>
  {
    BodyMentions(s, |s.body|)
  }

  function BlockMentions(b: Block): set<string>
  {
    match b
    case Prose => {}
    case Mention(v) => {v}
    case Sub(c) => Mentions(c)
  }

  /** Every value mentioned in the sections of a document. */
  function ContentMentions(ss: seq<Section>): set<string>
  {
    if ss == [] then {} else ContentMentions(ss[..|ss| - 1]) + Mentions(ss[|ss| - 1])
  }

  lemma {:induction false} BodyMentionsPrefix(s: Section, t: Section, n: nat)
    requires n <= |s.body| && n <= |t.body| && s.body[..n] == t.body[..n]
    ensures BodyMentions(s, n) == BodyMentions(t, n)
  {
    if n > 0 {
      assert s.body[n - 1] == s.body[..n][n - 1] == t.body[..n][n - 1] == t.body[n - 1];
      assert s.body[..n - 1] == s.body[..n][..n - 1];
      assert t.body[..n - 1] == t.body[..n][..n - 1];
      BodyMentionsPrefix(s, t, n - 1);
    }
  }

  /** Writing a block adds exactly that block's mentions. */
  lemma WriteMentions(s: Section, b: Block)
    ensures Mentions(Write(s, b)) == Mentions(s) + BlockMentions(b)
  {
    var r := Write(s, b);
    assert r.body[..|s.body|] == s.body[..|s.body|];
    BodyMentionsPrefix(r, s, |s.body|);
    assert r.body[|s.body|] == b;
  }

  lemma {:induction false} BodyMentionsProse(s: Section, n: nat)
    requires n <= |s.body| && forall i :: 0 <= i < n ==> s.body[i].Prose?
    ensures BodyMentions(s, n) == {}
  {
    if n > 0 {
      BodyMentionsProse(s, n - 1);
    }
  }

  /** A section of static prose only mentions nothing. */
  lemma NoMentions(s: Section)
    requires forall i :: 0 <= i < |s.body| ==> s.body[i].Prose?
    ensures Mentions(s) == {}
  {
    BodyMentionsProse(s, |s.body|);
  }

  lemma {:induction false} ContentMentionsAppend(ss: seq<Section>, s: Section)
    ensures ContentMentions(ss + [s]) == ContentMentions(ss) + Mentions(s)
  {
    assert (ss + [s])[..|ss|] == ss;
  }
}
