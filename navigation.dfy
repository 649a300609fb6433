/** The viewer's navigation history (`navigationHistory`,
    script_note.js:41-45): the pages visited, in order, and a cursor on the
    page shown. The value-level functions say what each operation does;
    the class `NavigationHistory` holds the state the source mutates and
    its methods are proved against those functions. A call to
    `loadNotionPage` the source makes is returned as the id of the page to
    load. */
module Navigation {
  import opened Wrappers

  const LoadingTitle: string := "Loading..."

  /** One history entry; `timestamp` is the `Date.now()` of the visit. */
  datatype Entry = Entry(id: string, title: string, timestamp: int)

  datatype History = History(pages: seq<Entry>, cursor: int)

  /** The cursor is on a page, or is -1 exactly when there is none. */
  predicate WellFormed(h: History) {
    -1 <= h.cursor < |h.pages| && (h.cursor == -1 <==> h.pages == [])
  }

  /** The history after a reset (`pages = []`, `currentIndex = -1`). */
  const Cleared: History := History([], -1)

  /** `pageTitle || 'Loading...'`. */
  function TitleOrLoading(title: Option<string>): (r: string)
    ensures r != ""
    ensures title.Some? && title.value != "" ==> r == title.value
    ensures title.None? || title.value == "" ==> r == LoadingTitle
  {
    if title.Some? && title.value != "" then title.value else LoadingTitle
  }

  /** `addToNavigationHistory`: drop the entries after the cursor, append
      the new page and put the cursor on it. */
  function Visit(h: History, id: string, title: Option<string>, now: int): (r: History)
    requires WellFormed(h)
    ensures WellFormed(r)
    ensures r.pages == h.pages[..h.cursor + 1] + [Entry(id, TitleOrLoading(title), now)]
    ensures r.cursor == |r.pages| - 1 == h.cursor + 1
  {
    var kept := if h.cursor < |h.pages| - 1 then h.pages[..h.cursor + 1] else h.pages;
    History(kept + [Entry(id, TitleOrLoading(title), now)], |kept|)
  }

  /** `navigateBack` moves the cursor one page back when it is past the
      first page. */
  function Back(h: History): (r: History)
    requires WellFormed(h)
    ensures WellFormed(r) && r.pages == h.pages
    ensures r.cursor == if h.cursor > 0 then h.cursor - 1 else h.cursor
  {
    if h.cursor > 0 then h.(cursor := h.cursor - 1) else h
  }

  /** `navigateForward` moves the cursor one page forward when it is before
      the last page. */
  function Forward(h: History): (r: History)
    requires WellFormed(h)
    ensures WellFormed(r) && r.pages == h.pages
    ensures r.cursor == if h.cursor < |h.pages| - 1 then h.cursor + 1 else h.cursor
  {
    if h.cursor < |h.pages| - 1 then h.(cursor := h.cursor + 1) else h
  }

  /** `navigateToHistoryIndex` puts the cursor on `index` when it names a
      page. */
  function JumpTo(h: History, index: int): (r: History)
    requires WellFormed(h)
    ensures WellFormed(r) && r.pages == h.pages
    ensures r.cursor == if 0 <= index < |h.pages| then index else h.cursor
  {
    if 0 <= index < |h.pages| then h.(cursor := index) else h
  }

  /** The back button is disabled when `currentIndex <= 0`. */
  predicate BackDisabled(h: History) {
    h.cursor <= 0
  }

  /** The forward button is disabled when `currentIndex >= pages.length - 1`. */
  predicate ForwardDisabled(h: History) {
    h.cursor >= |h.pages| - 1
  }

  /** The page a move loads: the entry under the new cursor, when the
      move happened. */
  function Loaded(before: History, after: History): (r: Option<string>)
    requires WellFormed(after)
    ensures r.Some? <==> before != after && after.pages != []
    ensures r.Some? ==> r.value == after.pages[after.cursor].id
  {
    if before == after || after.pages == [] then None else Some(after.pages[after.cursor].id)
  }

  // ---------------------------------------------------------------------
  // Title back-fill

  /** The entry at `i` renamed to `title`. */
  function Retitle(h: History, i: nat, title: string): (r: History)
    requires i < |h.pages|
    ensures r.cursor == h.cursor && |r.pages| == |h.pages|
    ensures r.pages[i] == h.pages[i].(title := title)
    ensures forall k :: 0 <= k < |h.pages| && k != i ==> r.pages[k] == h.pages[k]
  {
    h.(pages := h.pages[i := h.pages[i].(title := title)])
  }

  /** `loadNotionPage` (script_note.js:289-299): after a fresh visit the
      last entry takes the fetched title; after a move through the history
      the entry under the cursor does. */
  function BackfillOnLoad(h: History, addToHistory: bool, title: string): (r: History)
    requires WellFormed(h)
    ensures WellFormed(r)
    ensures addToHistory && h.pages != [] ==> r == Retitle(h, |h.pages| - 1, title)
    ensures !addToHistory && h.cursor >= 0 ==> r == Retitle(h, h.cursor, title)
    ensures h.pages == [] ==> r == h
  {
    if addToHistory && |h.pages| > 0 then Retitle(h, |h.pages| - 1, title)
    else if !addToHistory && h.cursor >= 0 then Retitle(h, h.cursor, title)
    else h
  }

  /** `renderNotionPage` (script_note.js:378-384): the current entry takes
      the page title only while it still shows the placeholder. */
  function BackfillOnRender(h: History, title: string): (r: History)
    requires WellFormed(h)
    ensures WellFormed(r)
    ensures h.pages != [] && h.pages[h.cursor].title == LoadingTitle ==> r == Retitle(h, h.cursor, title)
    ensures h.pages == [] || h.pages[h.cursor].title != LoadingTitle ==> r == h
  {
    if |h.pages| > 0 && h.pages[h.cursor].title == LoadingTitle then Retitle(h, h.cursor, title) else h
  }

  // ---------------------------------------------------------------------
  // Breadcrumbs

  /** A breadcrumb item: the Workspace link, the current page (not
      clickable), or an earlier page that jumps to its own index. */
  datatype Crumb = WorkspaceCrumb | CurrentCrumb(title: string) | LinkCrumb(title: string, index: nat)

  /** The items for the entries `path`, the one at `current` marked. */
  function PathCrumbs(path: seq<Entry>, current: int): seq<Crumb>
  {
    if path == [] then []
    else
      var i := |path| - 1;
      PathCrumbs(path[..i], current)
      + [if i == current then CurrentCrumb(path[i].title) else LinkCrumb(path[i].title, i)]
  }

  /** `updateBreadcrumbs`: Workspace, then one item per entry up to and
      including the cursor. */
  function Breadcrumbs(h: History): seq<Crumb>
    requires WellFormed(h)
  {
    [WorkspaceCrumb] + PathCrumbs(h.pages[..h.cursor + 1], h.cursor)
  }

  lemma {:induction false} PathCrumbsShape(path: seq<Entry>, current: int)
    ensures |PathCrumbs(path, current)| == |path|
    ensures forall i :: 0 <= i < |path| ==>
      PathCrumbs(path, current)[i] == if i == current then CurrentCrumb(path[i].title) else LinkCrumb(path[i].title, i)
    decreases |path|
  {
    if path != [] {
      var n := |path| - 1;
      PathCrumbsShape(path[..n], current);
      assert forall i :: 0 <= i < n ==> path[..n][i] == path[i];
    }
  }

  /** The breadcrumb trail: Workspace first, then the entries up to the
      cursor in order; only the last is current, every other one links to
      its own index. */
  lemma BreadcrumbsShape(h: History)
    requires WellFormed(h)
    ensures var c := Breadcrumbs(h);
      && |c| == h.cursor + 2
      && c[0] == WorkspaceCrumb
      && (h.cursor >= 0 ==> c[h.cursor + 1] == CurrentCrumb(h.pages[h.cursor].title))
      && forall i :: 0 <= i < h.cursor ==> c[i + 1] == LinkCrumb(h.pages[i].title, i)
  {
    PathCrumbsShape(h.pages[..h.cursor + 1], h.cursor);
  }

  // ---------------------------------------------------------------------
  // Properties of the history operations

  /** Each button is disabled exactly when pressing it would change
      nothing. */
  lemma DisabledIffNoOp(h: History)
    requires WellFormed(h)
    ensures BackDisabled(h) <==> Back(h) == h
    ensures ForwardDisabled(h) <==> Forward(h) == h
  {
  }

  lemma BackThenForward(h: History)
    requires WellFormed(h) && !BackDisabled(h)
    ensures Forward(Back(h)) == h
  {
  }

  lemma ForwardThenBack(h: History)
    requires WellFormed(h) && !ForwardDisabled(h)
    ensures Back(Forward(h)) == h
  {
  }

  /** A visit leaves no forward history, and the entries up to the old
      cursor are kept. */
  lemma VisitEndsHistory(h: History, id: string, title: Option<string>, now: int)
    requires WellFormed(h)
    ensures ForwardDisabled(Visit(h, id, title, now))
    ensures Visit(h, id, title, now).pages[..h.cursor + 1] == h.pages[..h.cursor + 1]
    ensures h.cursor >= 0 ==> Back(Visit(h, id, title, now)).cursor == h.cursor
  {
    var r := Visit(h, id, title, now);
    assert r.pages[..h.cursor + 1] == h.pages[..h.cursor + 1];
  }

  /** The operations a user can trigger. */
  datatype Op =
    | VisitOp(id: string, pageTitle: Option<string>, now: int)
    | BackOp
    | ForwardOp
    | JumpOp(index: int)
    | ResetOp
    | LoadedOp(addToHistory: bool, fetchedTitle: string)
    | RenderedOp(renderedTitle: string)

  function Apply(h: History, op: Op): (r: History)
    requires WellFormed(h)
    ensures WellFormed(r)
  {
    match op
    case VisitOp(id, title, now) => Visit(h, id, title, now)
    case BackOp => Back(h)
    case ForwardOp => Forward(h)
    case JumpOp(index) => JumpTo(h, index)
    case ResetOp => Cleared
    case LoadedOp(addToHistory, title) => BackfillOnLoad(h, addToHistory, title)
    case RenderedOp(title) => BackfillOnRender(h, title)
  }

  function Run(h: History, ops: seq<Op>): History
    requires WellFormed(h)
    decreases |ops|
  {
    if ops == [] then h else Run(Apply(h, ops[0]), ops[1..])
  }

  /** Any sequence of operations from a well-formed history keeps the
      cursor in range, at -1 exactly when the history is empty. */
  lemma {:induction false} RunWellFormed(h: History, ops: seq<Op>)
    requires WellFormed(h)
    ensures WellFormed(Run(h, ops))
    decreases |ops|
  {
    if ops != [] {
      RunWellFormed(Apply(h, ops[0]), ops[1..]);
    }
  }

  predicate IsMove(op: Op) {
    op.BackOp? || op.ForwardOp? || op.JumpOp?
  }

  /** Moving through the history never changes the pages it holds. */
  lemma {:induction false} MovesKeepPages(h: History, ops: seq<Op>)
    requires WellFormed(h)
    requires forall i :: 0 <= i < |ops| ==> IsMove(ops[i])
    ensures Run(h, ops).pages == h.pages
    decreases |ops|
  {
    if ops != [] {
      assert IsMove(ops[0]);
      assert forall i :: 0 <= i < |ops[1..]| ==> ops[1..][i] == ops[i + 1];
      MovesKeepPages(Apply(h, ops[0]), ops[1..]);
    }
  }

  // ---------------------------------------------------------------------
  // The mutable history

  class NavigationHistory {
    var pages: seq<Entry>
    var currentIndex: int

    function Model(): History
      reads this
    {
      History(pages, currentIndex)
    }

    predicate Valid()
      reads this
    {
      WellFormed(Model())
    }

    /** The initial `{ pages: [], currentIndex: -1 }`. */
    constructor ()
      ensures Valid() && Model() == Cleared
    {
      pages := [];
      currentIndex := -1;
    }

    method AddToNavigationHistory(pageId: string, pageTitle: Option<string>, now: int)
      requires Valid()
      modifies this
      ensures Valid() && Model() == Visit(old(Model()), pageId, pageTitle, now)
    {
      if currentIndex < |pages| - 1 {
        pages := pages[..currentIndex + 1];
      }
      pages := pages + [Entry(pageId, TitleOrLoading(pageTitle), now)];
      currentIndex := |pages| - 1;
    }

    /** `loadSpecificPage`: a visit with the placeholder title, then load
        that page. */
    method LoadSpecificPage(pageId: string, now: int) returns (load: string)
      requires Valid()
      modifies this
      ensures Valid() && Model() == Visit(old(Model()), pageId, None, now)
      ensures load == pageId
    {
      AddToNavigationHistory(pageId, None, now);
      load := pageId;
    }

    method NavigateBack() returns (load: Option<string>)
      requires Valid()
      modifies this
      ensures Valid() && Model() == Back(old(Model()))
      ensures load == Loaded(old(Model()), Model())
    {
      load := None;
      if currentIndex > 0 {
        currentIndex := currentIndex - 1;
        load := Some(pages[currentIndex].id);
      }
    }

    method NavigateForward() returns (load: Option<string>)
      requires Valid()
      modifies this
      ensures Valid() && Model() == Forward(old(Model()))
      ensures load == Loaded(old(Model()), Model())
    {
      load := None;
      if currentIndex < |pages| - 1 {
        currentIndex := currentIndex + 1;
        load := Some(pages[currentIndex].id);
      }
    }

    /** `navigateToHistoryIndex`; jumping to the current index still
        reloads that page. */
    method NavigateToHistoryIndex(index: int) returns (load: Option<string>)
      requires Valid()
      modifies this
      ensures Valid() && Model() == JumpTo(old(Model()), index)
      ensures load == if 0 <= index < |pages| then Some(pages[index].id) else None
    {
      load := None;
      if 0 <= index < |pages| {
        currentIndex := index;
        load := Some(pages[index].id);
      }
    }

    /** The reset in `navigateToWorkspace` and `loadNotionWorkspace`. */
    method Reset()
      modifies this
      ensures Valid() && Model() == Cleared
    {
      pages := [];
      currentIndex := -1;
    }

    method BackfillAfterLoad(addToHistory: bool, title: string)
      requires Valid()
      modifies this
      ensures Valid() && Model() == BackfillOnLoad(old(Model()), addToHistory, title)
    {
      if addToHistory && |pages| > 0 {
        var last := |pages| - 1;
        pages := pages[last := pages[last].(title := title)];
      } else if !addToHistory && currentIndex >= 0 {
        pages := pages[currentIndex := pages[currentIndex].(title := title)];
      }
    }

    method BackfillAfterRender(title: string)
      requires Valid()
      modifies this
      ensures Valid() && Model() == BackfillOnRender(old(Model()), title)
    {
      if |pages| > 0 {
        var current := pages[currentIndex];
        if current.title == LoadingTitle {
          pages := pages[currentIndex := current.(title := title)];
        }
      }
    }

    /** `updateBreadcrumbs`: the Workspace item, then one item per page of
        `pages.slice(0, currentIndex + 1)` built in a `forEach`. */
    method UpdateBreadcrumbs() returns (crumbs: seq<Crumb>)
      requires Valid()
      ensures crumbs == Breadcrumbs(Model())
    {
      crumbs := [WorkspaceCrumb];
      var path := pages[..currentIndex + 1];
      var i := 0;
      while i < |path|
        invariant 0 <= i <= |path|
        invariant crumbs == [WorkspaceCrumb] + PathCrumbs(path[..i], currentIndex)
      {
        assert path[..i + 1][..i] == path[..i];
        var isCurrentPage := i == currentIndex;
        if isCurrentPage {
          crumbs := crumbs + [CurrentCrumb(path[i].title)];
        } else {
          crumbs := crumbs + [LinkCrumb(path[i].title, i)];
        }
        i := i + 1;
      }
      assert path[..i] == path;
    }

    /** `updateNavigationButtons`: the two disabled flags, then the
        breadcrumbs. */
    method UpdateNavigationButtons() returns (backDisabled: bool, forwardDisabled: bool, crumbs: seq<Crumb>)
      requires Valid()
      ensures backDisabled == BackDisabled(Model())
      ensures forwardDisabled == ForwardDisabled(Model())
      ensures crumbs == Breadcrumbs(Model())
    {
      backDisabled := currentIndex <= 0;
      forwardDisabled := currentIndex >= |pages| - 1;
      crumbs := UpdateBreadcrumbs();
    }
  }
}
