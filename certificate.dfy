/** What the three renderers have in common: the blocks a story is made of,
    the body text as the sequence of fragments it is built from, the
    generated file names, and the draws of the clock and of `uuid4` that
    each rendering consumes. */
module Certificate {
  import opened PyValue

  /** The paragraph styles the renderers create, named as in the source.
      Only the tag is kept; font, size, colour and spacing are not modelled. */
  datatype StyleTag =
    | CustomTitle | CustomSubtitle | CustomBody
    | CertificateTitle | CertificateBody | Signature
    | MinimalTitle | MinimalBody

  /** One flowable of a story: `Spacer(width, height)` or `Paragraph(text, style)`. */
  datatype Block = Spacer(width: int, height: int) | Para(text: string, style: StyleTag)

  /** The reportlab colour constants the template tables name. */
  datatype Color = Black | White | LightBlue | DarkBlue | LightYellow | DarkGoldenrod | LightGreen | DarkGreen

  /** What a renderer produces: the path it returns and the story it builds. */
  datatype Rendered = Rendered(filename: string, story: seq<Block>)

  /** The values one rendering takes from its environment: the first
      `uuid4().hex[:8]` (file name), the second (certificate ID) and
      `datetime.now().strftime('%B %d, %Y')`. */
  datatype Draws = Draws(fileHex: string, idHex: string, today: string)

  predicate WellFormed(d: Draws) { IsHex8(d.fileHex) && IsHex8(d.idHex) }

  // ---- body text ----

  /** Which statement of a renderer contributed a fragment of the body. */
  datatype PartKind = Opening | OrganizationLine | ProjectLine | DateAndId | DateLine

  /** A fragment of the body text: the opening literal or one `+=`. */
  datatype Part = Part(kind: PartKind, text: string)

  /** Position of a fragment kind in every renderer's body. */
  function Rank(k: PartKind): nat {
    match k
    case Opening => 0
    case OrganizationLine => 1
    case ProjectLine => 2
    case DateAndId => 3
    case DateLine => 3
  }

  /** Fragments appear in the order Opening, Organization, Project, Date,
      each at most once. */
  predicate InCanonicalOrder(ps: seq<Part>) {
    forall i, j :: 0 <= i < j < |ps| ==> Rank(ps[i].kind) < Rank(ps[j].kind)
  }

  predicate HasKind(ps: seq<Part>, k: PartKind) {
    exists i :: 0 <= i < |ps| && ps[i].kind == k
  }

  /** The text the fragments add up to, as `certificate_text` grows by `+=`. */
  function Concat(ps: seq<Part>): string {
    if ps == [] then "" else Concat(ps[..|ps| - 1]) + ps[|ps| - 1].text
  }

  /** One more `+=` appends one more fragment. */
  lemma ConcatAppend(ps: seq<Part>, p: Part)
    ensures Concat(ps + [p]) == Concat(ps) + p.text
  {
    assert (ps + [p])[..|ps|] == ps;
  }

  /** Joining two runs of fragments joins their texts. */
  lemma {:induction false} ConcatJoin(a: seq<Part>, b: seq<Part>)
    ensures Concat(a + b) == Concat(a) + Concat(b)
    decreases |b|
  {
    if b == [] {
      assert a + b == a;
    } else {
      var b' := b[..|b| - 1];
      assert (a + b)[..|a + b| - 1] == a + b';
      ConcatJoin(a, b');
    }
  }

  /** A fragment that an `if` adds or leaves out. */
  function Optional(present: bool, p: Part): seq<Part> {
    if present then [p] else []
  }

  function OptionalText(present: bool, p: Part): string {
    if present then p.text else ""
  }

  lemma ConcatOptional(present: bool, p: Part)
    ensures Concat(Optional(present, p)) == OptionalText(present, p)
    ensures Concat([p]) == p.text
  {
    ConcatAppend([], p);
  }

  /** The body starts with its first fragment. */
  lemma {:induction false} ConcatStartsWith(ps: seq<Part>)
    requires ps != []
    ensures ps[0].text <= Concat(ps)
  {
    if |ps| > 1 {
      ConcatStartsWith(ps[..|ps| - 1]);
    }
  }

  /** The body ends with its last fragment. */
  lemma ConcatEndsWith(ps: seq<Part>)
    requires ps != []
    ensures |ps[|ps| - 1].text| <= |Concat(ps)|
    ensures Concat(ps)[|Concat(ps)| - |ps[|ps| - 1].text|..] == ps[|ps| - 1].text
  {
  }

  /** The middle of three concatenated strings, sliced back out. */
  lemma SliceOfConcat(a: string, b: string, c: string)
    ensures (a + b + c)[|a|..|a| + |b|] == b
  {
  }

  /** A slice inside a prefix is the same slice of the whole. */
  lemma PrefixSlice(t: string, s: string, i: nat, j: nat)
    requires t <= s && i <= j <= |t|
    ensures s[i..j] == t[i..j]
  {
    assert s[..|t|] == t;
    assert s[i..j] == s[..|t|][i..j];
  }

  /** `<b>…</b>` around a user field, inserted without escaping. */
  function Bold(s: string): string { "<b>" + s + "</b>" }

  // ---- file names ----

  const Directory := "certificates/"

  /** The three renderers `generate_certificate_pdf` chooses between. */
  datatype Renderer = SimpleRenderer | AdvancedRenderer | MinimalRenderer

  function FilePrefix(r: Renderer): string {
    match r
    case SimpleRenderer => "certificate_"
    case AdvancedRenderer => "advanced_certificate_"
    case MinimalRenderer => "minimal_certificate_"
  }

  /** `f"certificates/{prefix}{hex}.pdf"` */
  function CertificatePath(r: Renderer, hex: string): string {
    Directory + FilePrefix(r) + hex + ".pdf"
  }

  /** Which renderer a returned path comes from, read off its prefix. */
  function RendererOf(path: string): (r: Option<Renderer>)
    ensures r.Some? ==> Directory + FilePrefix(r.value) <= path
    ensures r.None? ==> forall q :: !(Directory + FilePrefix(q) <= path)
  {
    if Directory + FilePrefix(AdvancedRenderer) <= path then Some(AdvancedRenderer)
    else if Directory + FilePrefix(MinimalRenderer) <= path then Some(MinimalRenderer)
    else if Directory + FilePrefix(SimpleRenderer) <= path then Some(SimpleRenderer)
    else None
  }

  /** A path names the renderer that made it, whatever the suffix. */
  lemma RendererOfPath(r: Renderer, hex: string)
    ensures RendererOf(CertificatePath(r, hex)) == Some(r)
  {
    var p := CertificatePath(r, hex);
    assert p[..|Directory + FilePrefix(r)|] == Directory + FilePrefix(r);
    assert p[13] == FilePrefix(r)[0];
  }

  /** Different suffixes give different paths: no two renderings share a file. */
  lemma PathInjective(r: Renderer, h1: string, h2: string)
    requires h1 != h2
    ensures CertificatePath(r, h1) != CertificatePath(r, h2)
  {
    if |h1| == |h2| {
      var n := |Directory + FilePrefix(r)|;
      assert CertificatePath(r, h1)[n..n + |h1|] == h1;
      assert CertificatePath(r, h2)[n..n + |h2|] == h2;
    } else {
      assert |CertificatePath(r, h1)| != |CertificatePath(r, h2)|;
    }
  }

  /** A path built from a uuid suffix has no `/` after the directory. */
  lemma PathTail(r: Renderer, hex: string)
    requires IsHex8(hex)
    ensures CertificatePath(r, hex) == Directory + (FilePrefix(r) + hex + ".pdf")
    ensures '/' !in FilePrefix(r) + hex + ".pdf"
  {
    PrefixHasNoSlash(r);
    HexHasNoSlash(hex);
    assert '/' !in ".pdf";
  }

  lemma PrefixHasNoSlash(r: Renderer)
    ensures '/' !in FilePrefix(r)
  {
    match r
    case SimpleRenderer =>
    case AdvancedRenderer =>
    case MinimalRenderer =>
  }

  lemma HexHasNoSlash(hex: string)
    requires IsHex8(hex)
    ensures '/' !in hex
  {
    forall i | 0 <= i < |hex| ensures hex[i] != '/' {
      var k :| 0 <= k < 16 && LowerHexDigits[k] == hex[i];
    }
  }


}
