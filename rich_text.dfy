/** Rendering of Notion rich text (`renderRichText`, script_note.js): a run
    of spans, each plain text with five boolean annotations, a colour name
    and an optional link, turned into nested inline markup. */
module RichText {
  import opened Wrappers

  datatype Annotations = Annotations(
    bold: bool, italic: bool, strikethrough: bool, underline: bool, code: bool,
    color: string)

  /** One element of a `rich_text` array. `href` is `None` for a JSON null. */
  datatype Span = Span(plainText: string, annotations: Annotations, href: Option<string>)

  /** `text.href` is truthy: present and not the empty string. */
  predicate HasLink(t: Span) {
    t.href.Some? && t.href.value != ""
  }

  /** `color && color !== 'default'`. */
  predicate HasColor(t: Span) {
    t.annotations.color != "" && t.annotations.color != "default"
  }

  /** `if (b) content = open + content + close`. */
  function WrapIf(b: bool, open: string, content: string, close: string): string {
    if b then open + content + close else content
  }

  /** One span, wrapped step by step exactly as the source does it: each
      wrapper encloses everything applied before it. */
  function RenderSpan(t: Span): string {
    var a := t.annotations;
    var c1 := WrapIf(a.bold, "<strong>", t.plainText, "</strong>");
    var c2 := WrapIf(a.italic, "<em>", c1, "</em>");
    var c3 := WrapIf(a.strikethrough, "<s>", c2, "</s>");
    var c4 := WrapIf(a.underline, "<u>", c3, "</u>");
    var c5 := WrapIf(a.code, "<code>", c4, "</code>");
    var c6 := WrapIf(HasLink(t), "<a href=\"" + LinkTarget(t) + "\" target=\"_blank\">", c5, "</a>");
    WrapIf(HasColor(t), "<span class=\"notion-color-" + a.color + "\">", c6, "</span>")
  }

  function LinkTarget(t: Span): string {
    if t.href.Some? then t.href.value else ""
  }

  /** `richText.map(...).join('')`. */
  function RenderRichText(spans: seq<Span>): string {
    if spans == [] then "" else RenderSpan(spans[0]) + RenderRichText(spans[1..])
  }

  /** One span renders as its own markup. */
  lemma RenderRichTextOne(t: Span)
    ensures RenderRichText([t]) == RenderSpan(t)
  {
    assert [t][1..] == [];
  }

  /** The rendering of a concatenation is the concatenation of the
      renderings: every span renders independently of its neighbours. */
  lemma {:induction false} RenderRichTextAppend(a: seq<Span>, b: seq<Span>)
    ensures RenderRichText(a + b) == RenderRichText(a) + RenderRichText(b)
  {
    if a == [] {
      assert a + b == b;
    } else {
      assert (a + b)[1..] == a[1..] + b;
      RenderRichTextAppend(a[1..], b);
    }
  }

  // ---------------------------------------------------------------------
  // An independent description of a rendered span: the stack of wrappers it
  // carries, opened outermost-first and closed innermost-first around the
  // plain text.

  datatype Wrapper = Strong | Emphasis | Strike | Underline | InlineCode | Link(href: string) | Color(name: string)

  /** Wrappers from the inside out: `Around(inside, w)` puts `w` around
      everything in `inside`. */
  datatype Nesting = Bare | Around(inside: Nesting, wrapper: Wrapper)

  /** The fixed priority of each wrapper: lower ranks sit further inside. */
  function Rank(w: Wrapper): nat {
    match w
    case Strong => 0
    case Emphasis => 1
    case Strike => 2
    case Underline => 3
    case InlineCode => 4
    case Link(_) => 5
    case Color(_) => 6
  }

  function OpenTag(w: Wrapper): string {
    match w
    case Strong => "<strong>"
    case Emphasis => "<em>"
    case Strike => "<s>"
    case Underline => "<u>"
    case InlineCode => "<code>"
    case Link(h) => "<a href=\"" + h + "\" target=\"_blank\">"
    case Color(c) => "<span class=\"notion-color-" + c + "\">"
  }

  function CloseTag(w: Wrapper): string {
    match w
    case Strong => "</strong>"
    case Emphasis => "</em>"
    case Strike => "</s>"
    case Underline => "</u>"
    case InlineCode => "</code>"
    case Link(_) => "</a>"
    case Color(_) => "</span>"
  }

  predicate Carries(n: Nesting, w: Wrapper) {
    n.Around? && (n.wrapper == w || Carries(n.inside, w))
  }

  /** Every wrapper in `n` has a rank below `bound`. */
  predicate RanksBelow(n: Nesting, bound: nat) {
    n.Around? ==> Rank(n.wrapper) < bound && RanksBelow(n.inside, bound)
  }

  /** Each wrapper sits outside only wrappers of strictly lower rank. */
  predicate Ascending(n: Nesting) {
    n.Around? ==> RanksBelow(n.inside, Rank(n.wrapper)) && Ascending(n.inside)
  }

  /** Opening tags, outermost first. */
  function Opening(n: Nesting): string {
    match n
    case Bare => ""
    case Around(i, w) => OpenTag(w) + Opening(i)
  }

  /** Closing tags, innermost first. */
  function Closing(n: Nesting): string {
    match n
    case Bare => ""
    case Around(i, w) => Closing(i) + CloseTag(w)
  }

  /** `content` nested inside the wrappers of `n`. */
  function Enclose(n: Nesting, content: string): string {
    match n
    case Bare => content
    case Around(i, w) => OpenTag(w) + Enclose(i, content) + CloseTag(w)
  }

  /** Nesting puts all opening tags before the content and all closing tags
      after it, in mirror order. */
  lemma {:induction false} EncloseSplit(n: Nesting, content: string)
    ensures Enclose(n, content) == Opening(n) + content + Closing(n)
  {
    match n
    case Bare =>
    case Around(i, w) =>
      EncloseSplit(i, content);
  }

  function When(n: Nesting, b: bool, w: Wrapper): Nesting {
    if b then Around(n, w) else n
  }

  /** The wrappers a span carries: one per set annotation in the order
      strong, em, s, u, code, then the link, then the colour, each around
      the ones before it. */
  function Layers(t: Span): Nesting {
    var a := t.annotations;
    var n1 := When(Bare, a.bold, Strong);
    var n2 := When(n1, a.italic, Emphasis);
    var n3 := When(n2, a.strikethrough, Strike);
    var n4 := When(n3, a.underline, Underline);
    var n5 := When(n4, a.code, InlineCode);
    var n6 := When(n5, HasLink(t), Link(LinkTarget(t)));
    When(n6, HasColor(t), Color(a.color))
  }

  lemma RanksBelowWeaken(n: Nesting, lo: nat, hi: nat)
    requires RanksBelow(n, lo) && lo <= hi
    ensures RanksBelow(n, hi)
  {
  }

  lemma CarriesBelow(n: Nesting, w: Wrapper)
    requires RanksBelow(n, Rank(w))
    ensures !Carries(n, w)
  {
  }

  lemma CarriesWhen(n: Nesting, b: bool, w: Wrapper, v: Wrapper)
    ensures Carries(When(n, b, w), v) <==> (b && w == v) || Carries(n, v)
  {
  }

  /** The wrappers of a span, one disjunct per possible layer. */
  lemma CarriesLayers(t: Span, v: Wrapper)
    ensures Carries(Layers(t), v) <==>
      || (t.annotations.bold && v == Strong)
      || (t.annotations.italic && v == Emphasis)
      || (t.annotations.strikethrough && v == Strike)
      || (t.annotations.underline && v == Underline)
      || (t.annotations.code && v == InlineCode)
      || (HasLink(t) && v == Link(LinkTarget(t)))
      || (HasColor(t) && v == Color(t.annotations.color))
  {
    var a := t.annotations;
    var n1 := When(Bare, a.bold, Strong);
    var n2 := When(n1, a.italic, Emphasis);
    var n3 := When(n2, a.strikethrough, Strike);
    var n4 := When(n3, a.underline, Underline);
    var n5 := When(n4, a.code, InlineCode);
    var n6 := When(n5, HasLink(t), Link(LinkTarget(t)));
    assert Layers(t) == When(n6, HasColor(t), Color(a.color));
    CarriesWhen(Bare, a.bold, Strong, v);
    CarriesWhen(n1, a.italic, Emphasis, v);
    CarriesWhen(n2, a.strikethrough, Strike, v);
    CarriesWhen(n3, a.underline, Underline, v);
    CarriesWhen(n4, a.code, InlineCode, v);
    CarriesWhen(n5, HasLink(t), Link(LinkTarget(t)), v);
    CarriesWhen(n6, HasColor(t), Color(a.color), v);
  }

  /** The wrappers always stack in the fixed order strong, em, s, u, code,
      link, colour, innermost first, whatever combination is set. */
  lemma LayersAscending(t: Span)
    ensures Ascending(Layers(t))
  {
    var a := t.annotations;
    var n1 := When(Bare, a.bold, Strong);
    var n2 := When(n1, a.italic, Emphasis);
    var n3 := When(n2, a.strikethrough, Strike);
    var n4 := When(n3, a.underline, Underline);
    var n5 := When(n4, a.code, InlineCode);
    var n6 := When(n5, HasLink(t), Link(LinkTarget(t)));
    assert Layers(t) == When(n6, HasColor(t), Color(a.color));
    RanksBelowWeaken(n1, 1, 2);
    RanksBelowWeaken(n2, 2, 3);
    RanksBelowWeaken(n3, 3, 4);
    RanksBelowWeaken(n4, 4, 5);
    RanksBelowWeaken(n5, 5, 6);
  }

  /** Each annotation contributes its wrapper exactly when it is set; the
      colour, when set, is the outermost wrapper. */
  lemma LayersCarryAnnotations(t: Span)
    ensures Carries(Layers(t), Strong) <==> t.annotations.bold
    ensures Carries(Layers(t), Emphasis) <==> t.annotations.italic
    ensures Carries(Layers(t), Strike) <==> t.annotations.strikethrough
    ensures Carries(Layers(t), Underline) <==> t.annotations.underline
    ensures Carries(Layers(t), InlineCode) <==> t.annotations.code
    ensures Carries(Layers(t), Link(LinkTarget(t))) <==> HasLink(t)
    ensures HasColor(t) <==> Layers(t).Around? && Layers(t).wrapper == Color(t.annotations.color)
  {
    var a := t.annotations;
    var n1 := When(Bare, a.bold, Strong);
    var n2 := When(n1, a.italic, Emphasis);
    var n3 := When(n2, a.strikethrough, Strike);
    var n4 := When(n3, a.underline, Underline);
    var n5 := When(n4, a.code, InlineCode);
    var n6 := When(n5, HasLink(t), Link(LinkTarget(t)));
    assert Layers(t) == When(n6, HasColor(t), Color(a.color));
    CarriesLayers(t, Strong);
    CarriesLayers(t, Emphasis);
    CarriesLayers(t, Strike);
    CarriesLayers(t, Underline);
    CarriesLayers(t, InlineCode);
    CarriesLayers(t, Link(LinkTarget(t)));
    assert RanksBelow(n6, 6);
    CarriesBelow(n6, Color(a.color));
  }

  lemma EncloseWhen(n: Nesting, b: bool, w: Wrapper, content: string)
    ensures Enclose(When(n, b, w), content) == WrapIf(b, OpenTag(w), Enclose(n, content), CloseTag(w))
  {
  }

  /** A rendered span is its plain text enclosed, properly nested, in the
      wrappers `Layers` lists: strong innermost, then em, s, u, code, then
      the link, and the colour span outermost. */
  lemma {:induction false} SpanNesting(t: Span)
    ensures RenderSpan(t) == Enclose(Layers(t), t.plainText)
    ensures RenderSpan(t) == Opening(Layers(t)) + t.plainText + Closing(Layers(t))
  {
    var a := t.annotations;
    var x := t.plainText;
    var n1 := When(Bare, a.bold, Strong);
    var n2 := When(n1, a.italic, Emphasis);
    var n3 := When(n2, a.strikethrough, Strike);
    var n4 := When(n3, a.underline, Underline);
    var n5 := When(n4, a.code, InlineCode);
    var n6 := When(n5, HasLink(t), Link(LinkTarget(t)));
    var n7 := When(n6, HasColor(t), Color(a.color));
    assert Layers(t) == n7;
    EncloseWhen(Bare, a.bold, Strong, x);
    EncloseWhen(n1, a.italic, Emphasis, x);
    EncloseWhen(n2, a.strikethrough, Strike, x);
    EncloseWhen(n3, a.underline, Underline, x);
    EncloseWhen(n4, a.code, InlineCode, x);
    EncloseWhen(n5, HasLink(t), Link(LinkTarget(t)), x);
    EncloseWhen(n6, HasColor(t), Color(a.color), x);
    EncloseSplit(n7, x);
  }

  /** Bold and italic together: the emphasis wraps the strong element. */
  lemma BoldInsideItalic(x: string)
    ensures RenderSpan(Span(x, Annotations(true, true, false, false, false, "default"), None))
         == "<em><strong>" + x + "</strong></em>"
  {
  }
}
