/** A Notion page object as the viewer reads it: its title (`getPageTitle`),
    its icon (`getPageIcon`) and the page markup (`renderNotionPage`),
    script_note.js. */
module Page {
  import opened Wrappers
  import opened RichText
  import opened Blocks

  const Untitled: string := "Untitled"

  /** The parts of `pageData` the viewer uses. `titleProperty` is
      `properties.title.title` when `properties.title` is set; `nameTitle`
      is `properties.Name.title` when that path exists. */
  datatype PageData = PageData(
    id: string,
    titleProperty: Option<seq<Span>>,
    nameTitle: Option<seq<Span>>,
    icon: Option<Icon>)

  /** The first span's plain text of the `Name` property, or "" when any
      step of the optional chain is missing. */
  function NameText(page: PageData): string {
    if page.nameTitle.Some? && |page.nameTitle.value| > 0 then page.nameTitle.value[0].plainText else ""
  }

  /** `getPageTitle`: the rendered `title` property when there is one, else
      the `Name` property's first plain text; an empty result falls back
      to "Untitled", so a page title is never empty. */
  function GetPageTitle(page: PageData): (r: string)
    ensures r != ""
    ensures page.titleProperty.Some? ==>
      r == (if RenderRichText(page.titleProperty.value) == "" then Untitled else RenderRichText(page.titleProperty.value))
    ensures page.titleProperty.None? ==> r == (if NameText(page) == "" then Untitled else NameText(page))
  {
    var chosen := if page.titleProperty.Some? then RenderRichText(page.titleProperty.value) else NameText(page);
    if chosen == "" then Untitled else chosen
  }

  /** `getPageIcon`: an emoji icon as is, an external icon as a 20x20
      image, and the page glyph for a hosted-file icon or no icon. */
  function GetPageIcon(page: PageData): (r: string)
    ensures page.icon.Some? && page.icon.value.Emoji? ==> r == page.icon.value.emoji
    ensures page.icon.Some? && page.icon.value.ExternalIcon? ==>
      r == "<img src=\"" + page.icon.value.url + "\" alt=\"icon\" width=\"20\" height=\"20\">"
    ensures page.icon.None? || page.icon.value.FileIcon? ==> r == PageGlyph
  {
    match page.icon
    case Some(Emoji(e)) => e
    case Some(ExternalIcon(url)) => "<img src=\"" + url + "\" alt=\"icon\" width=\"20\" height=\"20\">"
    case _ => PageGlyph
  }

  function PageHead(page: PageData, lastEdited: string): string {
    "<div class=\"notion-page\"><div class=\"notion-page-header\"><h1 class=\"notion-page-title\">"
    + GetPageIcon(page) + " " + GetPageTitle(page)
    + "</h1><div class=\"notion-page-meta\">Last edited: " + lastEdited
    + "</div></div><div class=\"notion-page-content\">"
  }

  const PageTail: string := "</div></div>"

  /** The markup `renderNotionPage` shows; `lastEdited` is the already
      formatted date. */
  function RenderPage(page: PageData, lastEdited: string, blocks: seq<Block>): string {
    PageHead(page, lastEdited) + RenderBlocks(blocks) + PageTail
  }

  /** The page content is the blocks' markup in order: rendering a page
      whose blocks are `a + b` places `b`'s markup right after `a`'s. */
  lemma PageContentInOrder(page: PageData, lastEdited: string, a: seq<Block>, b: seq<Block>)
    ensures RenderPage(page, lastEdited, a + b)
         == PageHead(page, lastEdited) + RenderBlocks(a) + RenderBlocks(b) + PageTail
  {
    var head := PageHead(page, lastEdited);
    var x, y := RenderBlocks(a), RenderBlocks(b);
    RenderBlocksAppend(a, b);
    calc {
      RenderPage(page, lastEdited, a + b);
      head + (x + y) + PageTail;
      { assert head + (x + y) == head + x + y; }
      head + x + y + PageTail;
    }
  }

  /** An empty `title` property does not fall through to `Name`. */
  lemma TitlePropertyWins(page: PageData)
    requires page.titleProperty.Some?
    ensures GetPageTitle(page) == GetPageTitle(page.(nameTitle := None))
  {
  }
}
