# A verified model of the assistant page's Notion viewer and chat store

The repository is a static web page with two parts. `script_note.js` is a
read-only Notion viewer. It fetches a page and its block tree through a
proxy, renders the blocks to markup, and keeps a browser-like navigation
history with back and forward buttons and breadcrumbs. `script.js` is a chat
assistant. It keeps a dictionary of chats, the id of the chat on screen, the
messages shown and the conversation sent to the model.

This project models the logic of both parts in Dafny and proves what each
operation guarantees:

- `navigation.dfy` covers the history. It has value-level functions for each
  operation, with properties proved about them. The class
  `Navigation.NavigationHistory` holds the mutated fields and its methods are
  proved against those functions. A `loadNotionPage` call made by the source
  becomes the returned id of the page to load.
- `rich_text.dfy`, `blocks.dfy` and `page.dfy` cover rendering as pure
  functions over already-resolved block trees. They prove the nesting order of
  inline wrappers, the table header and body split, the empty-children
  placeholders, and order-preserving concatenation. Table markup is built by
  imperative loops, as in the source.
- `fetch.dfy` covers `fetchBlocksWithChildren`. The remote API is an oracle
  function, `None` meaning the call threw. The method's loop and recursive
  calls are proved equal to a functional tree.
- `page_id.dfy` covers `extractPageIdFromUrl` as a leftmost-match scanner,
  with round trips for both id spellings whenever no match starts earlier
  in the URL.
- `chat_store.dfy` gives the chat store as a `Store` value and functions on
  it. `session.dfy` is the class `Session.ChatSession`, holding the globals of
  `script.js`, whose methods are proved against those functions.
- `text.dfy` gives JavaScript `trim` and the preview truncation idiom.
  `wrappers.dfy` gives `Option` and `Result`.

In span markup `<strong>` is applied first and `<em>` second, so `<em>` is
the outer element (`RichText.BoldInsideItalic`).

## Model

| member | source | states |
|---|---|---|
| Navigation.Visit | script_note.js:683-698 | the history after a visit: the entries up to the cursor, then one new entry titled with the given title or "Loading..."; the cursor is on the new entry; well-formedness is kept |
| Navigation.TitleOrLoading | script_note.js:692 | the given title when it is non-empty, otherwise "Loading..."; never empty |
| Navigation.Back | script_note.js:700-708 | pages unchanged; the cursor goes down by one only when above 0; well-formedness kept |
| Navigation.Forward | script_note.js:710-718 | pages unchanged; the cursor goes up by one only when below the last index; well-formedness kept |
| Navigation.JumpTo | script_note.js:796-804 | pages unchanged; the cursor moves to the index only when it names a page |
| Navigation.Loaded | script_note.js:703-705 | a move loads a page exactly when it changed the history, and that page is the one under the new cursor |
| Navigation.Retitle | script_note.js:291-296 | one entry renamed, every other entry and the cursor unchanged |
| Navigation.BackfillOnLoad | script_note.js:289-299 | after a fresh visit the last entry takes the fetched title; after a move the entry under the cursor does; an empty history is unchanged |
| Navigation.BackfillOnRender | script_note.js:378-384 | the current entry takes the page title only while it shows "Loading..."; otherwise nothing changes |
| Navigation.PathCrumbsShape | script_note.js:748-782 | one item per entry in order; the item at the current index is the current one, every other item links to its own index |
| Navigation.Breadcrumbs | script_note.js:734-786 | the trail `updateBreadcrumbs` shows; its shape is stated by BreadcrumbsShape and the loop UpdateBreadcrumbs builds it |
| Navigation.BreadcrumbsShape | script_note.js:734-786 | the trail is Workspace followed by the entries up to and including the cursor; only the last is current, the others link to their own index |
| Navigation.BackDisabled | script_note.js:722 | back is disabled at cursor 0 or below; DisabledIffNoOp shows this is exactly when Back does nothing |
| Navigation.ForwardDisabled | script_note.js:727 | forward is disabled at the last index or beyond; DisabledIffNoOp shows this is exactly when Forward does nothing |
| Navigation.DisabledIffNoOp | script_note.js:720-729 | back is disabled exactly when Back changes nothing, forward exactly when Forward changes nothing |
| Navigation.BackThenForward | script_note.js:700-718 | when back is enabled, back then forward restores the history |
| Navigation.ForwardThenBack | script_note.js:700-718 | when forward is enabled, forward then back restores the history |
| Navigation.VisitEndsHistory | script_note.js:684-697 | after a visit forward is disabled, the entries up to the old cursor are kept, and back returns to the old cursor |
| Navigation.Apply | script_note.js:683-718 | every operation, including the workspace reset, keeps the cursor in range and at -1 exactly when there are no pages |
| Navigation.RunWellFormed | script_note.js:683-718 | any sequence of operations from a well-formed history keeps it well-formed |
| Navigation.MovesKeepPages | script_note.js:700-718 | any sequence of back, forward and jump moves leaves the pages unchanged |
| Navigation.NavigationHistory.constructor | script_note.js:41-45 | the history starts empty with the cursor at -1 |
| Navigation.NavigationHistory.AddToNavigationHistory | script_note.js:683-698 | the in-place update equals Visit of the old history |
| Navigation.NavigationHistory.LoadSpecificPage | script_note.js:674-680 | a visit with the placeholder title, then that page is loaded |
| Navigation.NavigationHistory.NavigateBack | script_note.js:700-708 | the update equals Back; the page loaded is the one Loaded names |
| Navigation.NavigationHistory.NavigateForward | script_note.js:710-718 | the update equals Forward; the page loaded is the one Loaded names |
| Navigation.NavigationHistory.NavigateToHistoryIndex | script_note.js:796-804 | the update equals JumpTo; the page under a valid index is loaded, even when it is the current one |
| Navigation.NavigationHistory.Reset | script_note.js:788-794 | the history becomes empty with the cursor at -1 (also lines 344-345) |
| Navigation.NavigationHistory.BackfillAfterLoad | script_note.js:289-299 | the update equals BackfillOnLoad |
| Navigation.NavigationHistory.BackfillAfterRender | script_note.js:378-384 | the update equals BackfillOnRender |
| Navigation.NavigationHistory.UpdateBreadcrumbs | script_note.js:734-786 | the items the `forEach` builds are exactly Breadcrumbs of the history |
| Navigation.NavigationHistory.UpdateNavigationButtons | script_note.js:720-732 | back disabled iff the cursor is at most 0, forward disabled iff it is at least the last index; then the breadcrumbs |
| RichText.RenderSpan | script_note.js:625-642 | one span wrapped step by step; SpanNesting states it is the text enclosed in its nested layers |
| RichText.RenderRichText | script_note.js:624-644 | the spans' markup joined; RenderRichTextOne and RenderRichTextAppend state that each span renders on its own, in order |
| RichText.RenderRichTextOne | script_note.js:624-644 | a single span renders as its own markup |
| RichText.SpanNesting | script_note.js:625-643 | a rendered span is its plain text enclosed in the properly nested open and close tags of its wrappers |
| RichText.LayersAscending | script_note.js:628-640 | the wrappers always nest in the order strong, em, s, u, code, link, colour, innermost first |
| RichText.CarriesLayers | script_note.js:628-640 | a wrapper appears among the layers of a span exactly when one of the seven conditions that adds it holds |
| RichText.LayersCarryAnnotations | script_note.js:628-640 | each annotation adds its wrapper exactly when set; the link is added exactly when href is non-empty; the colour span is outermost exactly when the colour is set and not "default" |
| RichText.RenderRichTextAppend | script_note.js:624-644 | the spans render independently and are concatenated in order |
| RichText.BoldInsideItalic | script_note.js:628-629 | bold with italic gives `<em><strong>x</strong></em>` |
| Blocks.LayoutTable | script_note.js:538-592 | the placeholder exactly when children are missing or empty; otherwise the header is row 0 only with a column header and at least one row; header and body together are the `table_row` rows that have cells, in order |
| Blocks.PresentSplit | script_note.js:555-567 | splitting off the first row splits the rows with cells the same way |
| Blocks.Present | script_note.js:556-576 | the rows that have cells; its own contract is only a length bound, and PresentMembers, PresentAppend and PresentOne state its content and order |
| Blocks.PresentMembers | script_note.js:567-568 | a row is in the body exactly when some row holds it as its cells |
| Blocks.PresentAppend | script_note.js:567-568 | skipping rows without cells keeps the order: it distributes over concatenation |
| Blocks.PresentOne | script_note.js:567-568 | one row is kept exactly when it has cells |
| Blocks.RenderTable | script_note.js:536-595 | the markup the `forEach` loops build equals the markup of the table's layout |
| Blocks.AppendHead | script_note.js:556-563 | appends `<thead>` with one `<th>` per header cell only when the header row has cells |
| Blocks.AppendBody | script_note.js:567-576 | appends one `<tr>` of `<td>` cells per row that has cells, skipping the rest |
| Blocks.AppendCells | script_note.js:570-573 | appends every cell of a row, in order, each in its tag |
| Blocks.HeaderRowSeparated | script_note.js:553-576 | with a column header and a first row with cells, that row is the `<thead>` and the later rows with cells are the `<tbody>` |
| Blocks.EmptyChildrenLikeAbsent | script_note.js:460-462 | an empty `children` list renders exactly as a missing one (also line 538) |
| Blocks.ChildrenIgnoredOutsideContainers | script_note.js:427-622 | only toggles and tables depend on their children |
| Blocks.RenderBlocksAppend | script_note.js:461 | sibling blocks render independently and are concatenated in order |
| Blocks.RenderBlock | script_note.js:427-622 | `renderNotionBlock`, one branch per kind; the lemmas below state the fallback, the toggle body, the table layout and which blocks read their children |
| Blocks.RenderLeaf | script_note.js:429-534 | the branches of the kinds without children; ChildrenIgnoredOutsideContainers states their markup depends on id and payload only |
| Blocks.UnsupportedFallback | script_note.js:619-620 | any kind the renderer does not know shows "Unsupported block type: " and its type name |
| Blocks.ToggleShowsChildren | script_note.js:460-469 | a toggle's body is its resolved children's markup joined in order, under the summary of its text |
| Blocks.ToggleWithoutChildren | script_note.js:460-469 | a toggle without children has an empty body |
| Blocks.TableShowsLayout | script_note.js:536-595 | a table block shows the markup of its layout, the one RenderTable builds |
| Blocks.CodeLanguageDefault | script_note.js:474-475 | a code block without a language is labelled `language-text` |
| Blocks.RenderBlocks | script_note.js:461 | children joined; RenderBlocksOne and RenderBlocksAppend state each block renders on its own, in order |
| Blocks.RenderBlocksOne | script_note.js:461 | a single block renders as its own markup |
| Blocks.TableRows | script_note.js:549 | the filter of `table_row` children; its own contract is only a length bound, and TableRowsMembers, TableRowsAppend and TableRowsOne state its content and order |
| Blocks.TableRowsMembers | script_note.js:549 | a cell list is kept exactly when it is the cells of some `table_row` child |
| Blocks.TableRowsAppend | script_note.js:549 | the filter keeps the children's order: filtering a concatenation concatenates the filtered parts |
| Blocks.TableRowsOne | script_note.js:549 | one child gives its cells exactly when it is a `table_row` |
| Page.GetPageTitle | script_note.js:646-651 | the rendered title property when set, else the Name property's first plain text, each falling back to "Untitled"; never empty |
| Page.GetPageIcon | script_note.js:653-662 | an emoji icon as is, an external icon as a 20x20 image, otherwise the page glyph |
| Page.RenderPage | script_note.js:372-396 | the page header, the blocks' markup and the closing tags; PageContentInOrder states the blocks appear in order |
| Page.PageContentInOrder | script_note.js:386-396 | the page shows the markup of its blocks in order after its header |
| Page.TitlePropertyWins | script_note.js:647-649 | when a title property exists the Name property is not consulted |
| Fetch.FetchTree | script_note.js:313-339 | a failed top-level fetch gives an empty list; otherwise one block per fetched block |
| Fetch.Resolve | script_note.js:320-331 | a flagged block gets its fetched children; id, flag and payload are kept; an unflagged block is untouched |
| Fetch.FetchBlocksWithChildren | script_note.js:313-339 | the loop with its recursive calls computes FetchTree |
| Fetch.FetchKeepsBlocks | script_note.js:319-333 | every fetched block keeps its place, id, flag and payload; a flagged block carries the fetched children of its own id; unflagged blocks are returned as fetched |
| Fetch.NestedFailureIsolated | script_note.js:323-330 | a flagged block whose own fetch fails gets an empty children list, and every sibling is resolved on its own |
| Fetch.FetchedTreeMatchesFlags | script_note.js:313-339 | at every depth of the returned tree, a block has children exactly when it is flagged |
| PageId.FirstMatch | script_note.js:190 | the leftmost position at or after the start where either alternative matches, or none |
| PageId.MatchTextIsId | script_note.js:190-191 | either alternative's match with its dashes removed is 32 lowercase hex digits |
| PageId.ExtractPageIdFromUrl | script_note.js:188-192 | "" or 32 lowercase hex digits; "" exactly when nothing matches; otherwise the leftmost match with its dashes removed |
| PageId.ExtractsPlainId | script_note.js:188-192 | a 32-digit id with no match starting before it is extracted unchanged, whatever follows it |
| PageId.ExtractsDashedId | script_note.js:188-192 | the dashed spelling of an id, with no match starting before it, is extracted as the undashed id |
| PageId.NoMatchInPrefix | script_note.js:188-192 | no match starts inside a prefix without hex digits |
| PageId.RemoveDashes | script_note.js:191 | the result contains no dash |
| Text.Trim | script.js:522 | empty exactly when the input is all whitespace; otherwise non-whitespace at both ends |
| Text.TrimCutsWhitespace | script.js:522 | the result is a slice of the input, and everything before and after it is whitespace |
| Text.Truncate | script.js:371-373 | unchanged up to the limit; beyond it, the first n characters followed by "..." |
| ChatStore.Preview | script.js:371-373 | a user message cut to 50 characters plus "..."; a reply as "AI: " plus the message cut to 40 characters plus "..." |
| ChatStore.ChatName | script.js:538 | the message up to 30 characters, else its first 30 characters plus "..."; at most 33 characters |
| ChatStore.Without | script.js:843 | exactly the keys other than the deleted one, without duplicates, no more of them than there were keys |
| ChatStore.WithoutAppend | script.js:843 | the filter keeps key order: filtering a concatenation concatenates the filtered parts |
| ChatStore.WithoutFirst | script.js:843-847 | the first key kept is the first key in order other than the deleted one |
| ChatStore.Put | script.js:859 | assigning a key keeps the key order of the object: a new key goes last |
| ChatStore.Remove | script.js:865 | the key leaves the map and the order; everything else stays |
| ChatStore.SaveCurrent | script.js:213-217 | only the current chat changes, and only when the id is non-empty and names a chat; it receives the screen's messages and conversation |
| ChatStore.SwitchTo | script.js:212-230 | the old chat saved, the new id current, its messages and conversation shown, or an empty screen and conversation when the id names no chat; key order unchanged |
| ChatStore.NewChat | script.js:193-201 | the chat `createNewChat` adds: named "New Chat", no messages, "New chat started..." as its preview, waiting for its first message |
| ChatStore.CreateNewChat | script.js:186-210 | the new id is current and added at the end of the key order if new; with a new id the screen is saved into the old current chat, the other chats are unchanged and the new empty chat is shown; with the current id the screen is saved into the new chat and stays |
| ChatStore.AddMessage | script.js:361-375 | with saving, exactly one record appended and the current chat given the preview and the screen's messages; without saving, nothing changes |
| ChatStore.RenameOnFirst | script.js:536-541 | a chat still waiting for its first message takes the message's name; afterwards it no longer waits; other chats unchanged |
| ChatStore.SendMessage | script.js:522-568 | an all-whitespace input or a missing key changes nothing; otherwise the trimmed message is shown and added as a user turn, the current chat is renamed after it if it was waiting for its first message, gets it as its preview and the screen's messages, and every other chat is unchanged |
| ChatStore.ReceiveReply | script.js:573-601 | a reply is added as an assistant turn and shown; the current chat gets the conversation, the screen's messages and the "AI: " preview, and every other chat is unchanged; an error is shown marked as an error |
| ChatStore.ClearCurrentChat | script.js:691-709 | when confirmed, the screen, the conversation and the current chat's copies are emptied and the ready text restored; other chats unchanged |
| ChatStore.DeleteChat | script.js:835-873 | when confirmed the key is gone; otherwise nothing changes |
| ChatStore.DeleteOtherChat | script.js:841-865 | deleting a chat that is not on screen removes only that key |
| ChatStore.DeleteCurrentWithOthers | script.js:842-848 | deleting the chat on screen shows the first other key in order, with its messages and conversation; the other chats and the order of their keys are unchanged |
| ChatStore.DeleteLastChat | script.js:848-865 | deleting the last chat on screen leaves a fresh default chat; deleting `'default'` itself leaves no chat and the screen unchanged |
| ChatStore.SwitchAwayAndBack | script.js:212-230 | switching away and back restores the screen and conversation |
| ChatStore.RenamedOnlyOnce | script.js:536-541 | after the first message renamed a chat, a later message does not rename it |
| ChatStore.AddMessageSyncs | script.js:361-375 | the shown message is the last record and the current chat holds the same messages; the preview is at most 53 characters |
| ChatStore.Restore | script.js:631-636 | a missing `isFirstMessage` becomes "messages absent or empty"; a present flag is kept |
| ChatStore.RestoreAll | script.js:628-637 | every saved chat patched, no chat added or lost |
| ChatStore.LoadedChats | script.js:624-667 | the patched saved chats in their key order, or the default chat alone when nothing readable is saved |
| ChatStore.LoadActiveChat | script.js:677-689 | the saved id when it is non-empty and names a chat, else 'default' |
| ChatStore.ActiveChatIsLoaded | script.js:624-689 | after loading, the active id names a chat, unless saved data lacks the default chat |
| ChatStore.LoadCurrentChatData | script.js:777-780 | the current chat's messages and conversation are put on screen when it exists |
| ChatStore.LoadCurrentView | script.js:1211-1222 | the note view exactly when "note" was saved |
| Session.ChatSession.constructor | script.js:17 | no chats, 'default' current, empty screen and conversation, chat view (also lines 23-26) |
| Session.ChatSession.Assign | script.js:859 | `chats[k] = c` as an in-place update equal to Put: a new key goes to the end of the order |
| Session.ChatSession.SwitchToChat | script.js:212-230 | the in-place update equals SwitchTo |
| Session.ChatSession.CreateNewChat | script.js:186-210 | the in-place update equals CreateNewChat |
| Session.ChatSession.AddMessage | script.js:361-375 | the in-place update equals AddMessage |
| Session.ChatSession.SendMessage | script.js:522-568 | the update and the outcome equal SendMessage |
| Session.ChatSession.ReceiveReply | script.js:573-601 | the update equals ReceiveReply |
| Session.ChatSession.ClearCurrentChat | script.js:691-709 | the update equals ClearCurrentChat |
| Session.ChatSession.DeleteChat | script.js:835-873 | the update equals DeleteChat |
| Session.ChatSession.LoadChats | script.js:624-667 | the chats and key order the patching loop leaves equal LoadedChats; nothing else changes |
| Session.ChatSession.LoadActiveChat | script.js:677-689 | the current id becomes LoadActiveChat of the chats; nothing else changes |
| Session.ChatSession.LoadCurrentChatData | script.js:777-780 | the update equals LoadCurrentChatData |
| Session.ChatSession.LoadCurrentView | script.js:1211-1222 | the view becomes LoadCurrentView; the store is unchanged |

## Left out

- DOM construction and wiring are not modelled: `innerHTML`, classes, styles, event listeners, toasts, modals, clipboard, typing indicator and the welcome message. They are presentation, not state.
- The network is not modelled (`makeNotionAPICall`, `testNotionIntegration`, `getAIResponse`, `testApiKey`). The block API is an oracle, and the model's reply is a `Result` parameter.
- Async interleaving and `setTimeout` are not modelled. `sendMessage` is split into a synchronous part and `ReceiveReply`, with no other operation in between.
- `localStorage`, `JSON.parse`/`stringify` and the `btoa`/`atob` key storage are not modelled. Saved data is the `SavedChats` value and a saved id is an `Option`.
- Dates, locale and randomness are not modelled: `formatDate`, `formatTime`, `generateChatId`, `Date.now()`, `createdAt` and message timestamps. An id or a time is a parameter, and a formatted date is a string.
- `marked` and `hljs` are not modelled. They are foreign libraries.
- `renderChatList` (with its sort by `createdAt`) and `renderNotionWorkspace` are not modelled: they are markup over the state.
- `startRenameChat` is not modelled: it is driven by an input element.
- Template literals are given with the whitespace and line breaks between tags removed; spaces inside tags and between interpolations are kept. Glyphs are the Unicode characters the source means; some of them are mis-encoded in the file.
- Breadcrumbs are modelled as items (Workspace, current, link to index), not as their SVG markup.
- Fetch.FetchTree: the recursion carries a depth bound. At depth 0 the model answers as a failed call does, whereas the source has no bound. The inner `try/catch` around the recursive call is not modelled separately: the recursive call catches its own failures and never throws.
- ChatStore.Restore: a saved chat without `messages` gets an empty list of messages, whereas the source keeps the field missing and would fail later when copying it.
- Keys of `chats` that look like integers are not modelled: JavaScript lists those first. Prototype keys are not modelled either.
- Text.Truncate: lengths count characters, whereas JavaScript counts UTF-16 code units.
- Text.Trim: only the whitespace and line terminators of ECMAScript are removed. There is no Unicode normalisation.
- `loadNotionContent`, `handleSaveConfig` and the configuration panel are not modelled: they are I/O and UI.
