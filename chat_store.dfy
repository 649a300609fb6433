/** The chat store of the assistant page (script.js): the `chats`
    dictionary, the id of the chat on screen, the messages shown
    (`uiHistory`) and the conversation sent to the model (`chatHistory`).
    The functions here say what each operation does to a `Store`; the
    class `Session.ChatSession` holds the state the source mutates and its
    methods are proved against them. JavaScript object key
    order (insertion order) is kept explicitly in `order`. */
module ChatStore {
  import opened Wrappers
  import opened Text

  const DefaultId: string := "default"
  const DefaultName: string := "AI Assistant"
  const ReadyText: string := "Ready to help you with anything..."
  const NewChatName: string := "New Chat"
  const NewChatText: string := "New chat started..."

  /** A `uiHistory` record; its `timestamp` is not modelled. */
  datatype Message = Message(content: string, isUser: bool, isError: bool)

  datatype Role = User | Assistant

  /** A `chatHistory` record, `{ role, content }`. */
  datatype Turn = Turn(role: Role, content: string)

  /** A value of `chats`; `createdAt` is not modelled. */
  datatype Chat = Chat(
    id: string,
    name: string,
    messages: seq<Message>,
    chatHistory: seq<Turn>,
    lastMessage: string,
    isFirstMessage: bool)

  /** The chat created when nothing else is available. */
  const DefaultChat: Chat := Chat(DefaultId, DefaultName, [], [], ReadyText, true)

  /** No key appears twice. */
  predicate Distinct(order: seq<string>) {
    forall i, j :: 0 <= i < j < |order| ==> order[i] != order[j]
  }

  /** `order` lists the keys of `m`, each once. */
  predicate KeysInOrder<V>(order: seq<string>, m: map<string, V>) {
    Distinct(order) && m.Keys == set k | k in order
  }

  datatype Store = Store(
    chats: map<string, Chat>,
    order: seq<string>,
    current: string,
    ui: seq<Message>,
    history: seq<Turn>)

  predicate Valid(s: Store) {
    KeysInOrder(s.order, s.chats)
  }

  // ---------------------------------------------------------------------
  // Previews and names

  /** The chat list's last-message preview (script.js:371-373): a user
      message cut to 50 characters, a reply prefixed by "AI: " and cut to
      40, an ellipsis marking the cut. */
  function Preview(message: string, isUser: bool): (r: string)
    ensures isUser ==> r == if |message| <= 50 then message else message[..50] + "..."
    ensures !isUser ==> r == "AI: " + if |message| <= 40 then message else message[..40] + "..."
  {
    if isUser then Truncate(message, 50) else "AI: " + Truncate(message, 40)
  }

  /** The name a chat takes from its first message (script.js:538). */
  function ChatName(message: string): (r: string)
    ensures |r| <= 33
    ensures r == if |message| <= 30 then message else message[..30] + "..."
  {
    Truncate(message, 30)
  }

  // ---------------------------------------------------------------------
  // Keys

  /** `Object.keys(chats).filter(id => id !== k)`. */
  function Without(order: seq<string>, k: string): (r: seq<string>)
    ensures forall x :: x in r <==> x in order && x != k
    ensures |r| <= |order|
    ensures Distinct(order) ==> Distinct(r)
  {
    if order == [] then []
    else
      var rest := Without(order[1..], k);
      if order[0] == k then rest
      else
        assert order[0] !in rest ==> forall i :: 0 < i < |[order[0]] + rest| ==> ([order[0]] + rest)[i] == rest[i - 1];
        [order[0]] + rest
  }

  /** `filter` keeps the order of the keys it keeps: filtering a
      concatenation filters each part. */
  lemma {:induction false} WithoutAppend(a: seq<string>, b: seq<string>, k: string)
    ensures Without(a + b, k) == Without(a, k) + Without(b, k)
    decreases |a|
  {
    if a == [] {
      assert a + b == b;
    } else {
      assert (a + b)[0] == a[0];
      assert (a + b)[1..] == a[1..] + b;
      WithoutAppend(a[1..], b, k);
    }
  }

  /** The first key `filter` keeps is the first key other than `k`:
      every key before it is `k`. */
  lemma {:induction false} WithoutFirst(order: seq<string>, k: string)
    requires Without(order, k) != []
    ensures exists i :: (0 <= i < |order| && order[i] == Without(order, k)[0] && order[i] != k
      && forall j :: 0 <= j < i ==> order[j] == k)
    decreases |order|
  {
    if order[0] == k {
      WithoutFirst(order[1..], k);
      var i :| 0 <= i < |order[1..]| && order[1..][i] == Without(order[1..], k)[0] && order[1..][i] != k
        && forall j :: 0 <= j < i ==> order[1..][j] == k;
      assert order[i + 1] == order[1..][i];
      forall j | 0 <= j < i + 1 ensures order[j] == k {
        if j > 0 { assert order[j] == order[1..][j - 1]; }
      }
    } else {
      assert order[0] == Without(order, k)[0];
    }
  }

  /** Assigning a key: a new key goes to the end of the key order, an
      existing one keeps its place. */
  function Put(s: Store, k: string, c: Chat): (r: Store)
    requires Valid(s)
    ensures Valid(r)
    ensures r.chats == s.chats[k := c]
    ensures r.order == if k in s.chats then s.order else s.order + [k]
    ensures r.current == s.current && r.ui == s.ui && r.history == s.history
  {
    var order := if k in s.chats then s.order else s.order + [k];
    assert k !in s.chats ==> forall i :: 0 <= i < |s.order| ==> order[i] == s.order[i];
    s.(chats := s.chats[k := c], order := order)
  }

  /** `delete chats[k]`. */
  function Remove(s: Store, k: string): (r: Store)
    requires Valid(s)
    ensures Valid(r)
    ensures r.chats == s.chats - {k} && r.order == Without(s.order, k)
    ensures r.current == s.current && r.ui == s.ui && r.history == s.history
  {
    s.(chats := s.chats - {k}, order := Without(s.order, k))
  }

  // ---------------------------------------------------------------------
  // Operations

  /** The current chat with the screen's messages and conversation saved
      into it, if it exists (`currentChatId && chats[currentChatId]`). */
  function SaveCurrent(s: Store): (r: map<string, Chat>)
    ensures r.Keys == s.chats.Keys
    ensures forall k :: k in s.chats && k != s.current ==> r[k] == s.chats[k]
    ensures s.current != "" && s.current in s.chats ==>
      r[s.current] == s.chats[s.current].(messages := s.ui, chatHistory := s.history)
    ensures s.current == "" ==> r == s.chats
  {
    if s.current != "" && s.current in s.chats then
      s.chats[s.current := s.chats[s.current].(messages := s.ui, chatHistory := s.history)]
    else s.chats
  }

  /** `switchToChat` (script.js:212-230): save the screen into the current
      chat, make `id` current and show its messages and conversation, or
      nothing when `id` is not a chat. */
  function SwitchTo(s: Store, id: string): (r: Store)
    requires Valid(s)
    ensures Valid(r) && r.order == s.order
    ensures r.chats == SaveCurrent(s) && r.current == id
    ensures id in r.chats ==> r.ui == r.chats[id].messages && r.history == r.chats[id].chatHistory
    ensures id !in r.chats ==> r.ui == [] && r.history == []
  {
    var chats := SaveCurrent(s);
    if id in chats then Store(chats, s.order, id, chats[id].messages, chats[id].chatHistory)
    else Store(chats, s.order, id, [], [])
  }

  /** The chat `createNewChat` adds (script.js:193-201). */
  function NewChat(id: string): Chat {
    Chat(id, NewChatName, [], [], NewChatText, true)
  }

  /** `createNewChat` (script.js:186-210) with the generated id as a
      parameter: add an empty chat and switch to it. The switch saves the
      screen into the chat that was current; when that chat is the new
      id itself, the screen is saved into the new chat and stays. */
  function CreateNewChat(s: Store, id: string): (r: Store)
    requires Valid(s)
    ensures Valid(r) && r.current == id && r.chats.Keys == s.chats.Keys + {id}
    ensures r.order == if id in s.chats then s.order else s.order + [id]
    ensures id != s.current ==>
      r.chats == SaveCurrent(s)[id := NewChat(id)] && r.ui == [] && r.history == []
    ensures id == s.current && id != "" ==>
      && r.chats == s.chats[id := NewChat(id).(messages := s.ui, chatHistory := s.history)]
      && r.ui == s.ui && r.history == s.history
    ensures id == s.current == "" ==> r.chats == s.chats[id := NewChat(id)] && r.ui == [] && r.history == []
  {
    var added := Put(s, id, NewChat(id));
    assert id in SaveCurrent(added);
    SwitchTo(added, id)
  }

  /** The state part of `addMessage` (script.js:361-375): with
      `saveToStorage`, append one record to the screen and, when the current
      chat exists, give it the preview and a copy of the screen's
      messages. */
  function AddMessage(s: Store, message: string, isUser: bool, isError: bool, saveToStorage: bool): (r: Store)
    requires Valid(s)
    ensures Valid(r) && r.order == s.order && r.current == s.current && r.history == s.history
    ensures !saveToStorage ==> r == s
    ensures saveToStorage ==> r.ui == s.ui + [Message(message, isUser, isError)]
    ensures saveToStorage && s.current in s.chats ==>
      r.chats == s.chats[s.current := s.chats[s.current].(lastMessage := Preview(message, isUser), messages := r.ui)]
    ensures s.current !in s.chats ==> r.chats == s.chats
  {
    if !saveToStorage then s
    else
      var ui := s.ui + [Message(message, isUser, isError)];
      var chats :=
        if s.current in s.chats then
          s.chats[s.current := s.chats[s.current].(lastMessage := Preview(message, isUser), messages := ui)]
        else s.chats;
      s.(chats := chats, ui := ui)
  }

  /** What `sendMessage` did with the input. */
  datatype SendOutcome = EmptyMessage | MissingApiKey | Sent(message: string)

  /** The current chat renamed after its first message, if it is still
      waiting for one (script.js:536-541). */
  function RenameOnFirst(s: Store, message: string): (r: Store)
    requires Valid(s)
    ensures Valid(r) && r.order == s.order && r.current == s.current && r.ui == s.ui && r.history == s.history
    ensures r.chats.Keys == s.chats.Keys
    ensures forall k :: k in s.chats && k != s.current ==> r.chats[k] == s.chats[k]
    ensures s.current in s.chats ==>
      && !r.chats[s.current].isFirstMessage
      && r.chats[s.current].name == (if s.chats[s.current].isFirstMessage then ChatName(message) else s.chats[s.current].name)
      && r.chats[s.current] == s.chats[s.current].(name := r.chats[s.current].name, isFirstMessage := false)
  {
    if s.current in s.chats && s.chats[s.current].isFirstMessage then
      s.(chats := s.chats[s.current := s.chats[s.current].(name := ChatName(message), isFirstMessage := false)])
    else s
  }

  /** The synchronous part of `sendMessage` (script.js:522-568): trim the
      input; refuse an empty message or a missing API key without touching
      the state; otherwise rename a first-message chat, show the message
      and add it to the conversation. */
  function SendMessage(s: Store, input: string, apiKey: string): (r: (Store, SendOutcome))
    requires Valid(s)
    ensures Valid(r.0)
    ensures AllWhitespace(input) ==> r == (s, EmptyMessage)
    ensures !AllWhitespace(input) && apiKey == "" ==> r == (s, MissingApiKey)
    ensures !AllWhitespace(input) && apiKey != "" ==>
      var message := Trim(input);
      && r.1 == Sent(message)
      && r.0.current == s.current && r.0.order == s.order
      && r.0.ui == s.ui + [Message(message, true, false)]
      && r.0.history == s.history + [Turn(User, message)]
      && r.0.chats.Keys == s.chats.Keys
      && (forall k :: k in s.chats && k != s.current ==> r.0.chats[k] == s.chats[k])
      && (s.current in s.chats ==>
            var c := s.chats[s.current];
            r.0.chats[s.current] == c.(name := if c.isFirstMessage then ChatName(message) else c.name,
                                       isFirstMessage := false,
                                       lastMessage := Preview(message, true),
                                       messages := r.0.ui))
  {
    var message := Trim(input);
    if message == "" then (s, EmptyMessage)
    else if apiKey == "" then (s, MissingApiKey)
    else
      var shown := AddMessage(RenameOnFirst(s, message), message, true, false, true);
      (shown.(history := shown.history + [Turn(User, message)]), Sent(message))
  }

  /** The rest of `sendMessage` once the model has answered
      (script.js:573-601): a reply joins the conversation, which is saved
      into the current chat, and is shown; an error is only shown, marked as
      an error. */
  function ReceiveReply(s: Store, reply: Result<string, string>): (r: Store)
    requires Valid(s)
    ensures Valid(r) && r.order == s.order && r.current == s.current
    ensures reply.Ok? ==>
      && r.history == s.history + [Turn(Assistant, reply.value)]
      && r.ui == s.ui + [Message(reply.value, false, false)]
      && r.chats.Keys == s.chats.Keys
      && (forall k :: k in s.chats && k != s.current ==> r.chats[k] == s.chats[k])
      && (s.current in s.chats ==>
            r.chats[s.current] == s.chats[s.current].(chatHistory := r.history,
                                                      lastMessage := Preview(reply.value, false),
                                                      messages := r.ui))
    ensures reply.Err? ==> r == AddMessage(s, reply.error, false, true, true)
  {
    match reply
    case Ok(text) =>
      var history := s.history + [Turn(Assistant, text)];
      var chats :=
        if s.current in s.chats then s.chats[s.current := s.chats[s.current].(chatHistory := history)]
        else s.chats;
      AddMessage(s.(chats := chats, history := history), text, false, false, true)
    case Err(message) => AddMessage(s, message, false, true, true)
  }

  /** `clearCurrentChat` (script.js:691-709), `confirmed` being the answer
      to `confirm`: empty the screen and the conversation, and the current
      chat's copies of them, and put back the ready text. */
  function ClearCurrentChat(s: Store, confirmed: bool): (r: Store)
    requires Valid(s)
    ensures Valid(r)
    ensures !confirmed ==> r == s
    ensures confirmed ==>
      && r.ui == [] && r.history == [] && r.current == s.current && r.order == s.order
      && r.chats.Keys == s.chats.Keys
      && (forall k :: k in s.chats && k != s.current ==> r.chats[k] == s.chats[k])
      && (s.current in s.chats ==>
            r.chats[s.current] == s.chats[s.current].(messages := [], chatHistory := [], lastMessage := ReadyText))
  {
    if !confirmed then s
    else
      var chats :=
        if s.current in s.chats then
          s.chats[s.current := s.chats[s.current].(messages := [], chatHistory := [], lastMessage := ReadyText)]
        else s.chats;
      s.(chats := chats, ui := [], history := [])
  }

  /** `deleteChat` (script.js:835-873): deleting the current chat first
      switches to the first other key, or, when there is none, to a fresh
      default chat; then the key is deleted. */
  function DeleteChat(s: Store, id: string, confirmed: bool): (r: Store)
    requires Valid(s)
    ensures Valid(r)
    ensures !confirmed ==> r == s
    ensures confirmed ==> id !in r.chats
  {
    if !confirmed then s
    else
      var switched :=
        if id == s.current then
          var remaining := Without(s.order, id);
          if remaining != [] then SwitchTo(s, remaining[0])
          else SwitchTo(Put(s, DefaultId, DefaultChat), DefaultId)
        else s;
      Remove(switched, id)
  }

  // ---------------------------------------------------------------------
  // Loading

  /** A chat as `JSON.parse` gives it back: `messages` or `isFirstMessage`
      may be missing in data saved by an older version. */
  datatype StoredChat = StoredChat(
    id: string,
    name: string,
    messages: Option<seq<Message>>,
    chatHistory: seq<Turn>,
    lastMessage: string,
    isFirstMessage: Option<bool>)

  /** What `localStorage` holds under the chats key: nothing (or ""), text
      that `JSON.parse` rejects, or an object, its keys in order. */
  datatype SavedChats = NothingSaved | Unreadable | Saved(keys: seq<string>, entries: map<string, StoredChat>)

  /** The backward-compatibility patch (script.js:631-636): a missing
      `isFirstMessage` becomes "has no messages". */
  function Restore(c: StoredChat): (r: Chat)
    ensures c.isFirstMessage.Some? ==> r.isFirstMessage == c.isFirstMessage.value
    ensures c.isFirstMessage.None? ==> (r.isFirstMessage <==> c.messages.None? || c.messages.value == [])
    ensures c.messages.Some? ==> r.messages == c.messages.value
    ensures r.id == c.id && r.name == c.name && r.chatHistory == c.chatHistory && r.lastMessage == c.lastMessage
  {
    var flag := if c.isFirstMessage.Some? then c.isFirstMessage.value else c.messages.None? || c.messages.value == [];
    Chat(c.id, c.name, c.messages.GetOr([]), c.chatHistory, c.lastMessage, flag)
  }

  function RestoreAll(entries: map<string, StoredChat>): (r: map<string, Chat>)
    ensures r.Keys == entries.Keys
    ensures forall k :: k in entries ==> r[k] == Restore(entries[k])
  {
    map k | k in entries :: Restore(entries[k])
  }

  /** `loadChats` (script.js:624-667): the saved chats, patched, or the
      default chat alone when nothing readable is saved. */
  function LoadedChats(saved: SavedChats): (r: (map<string, Chat>, seq<string>))
    requires saved.Saved? ==> KeysInOrder(saved.keys, saved.entries)
    ensures KeysInOrder(r.1, r.0)
    ensures saved.Saved? ==> r.0 == RestoreAll(saved.entries) && r.1 == saved.keys
    ensures !saved.Saved? ==> r.0 == map[DefaultId := DefaultChat] && r.1 == [DefaultId]
  {
    if saved.Saved? then (RestoreAll(saved.entries), saved.keys)
    else (map[DefaultId := DefaultChat], [DefaultId])
  }

  /** `loadActiveChat` (script.js:677-689): the saved id when it names a
      chat, `'default'` otherwise (a failed read is `None`). */
  function LoadActiveChat(saved: Option<string>, chats: map<string, Chat>): (r: string)
    ensures r in chats || r == DefaultId
    ensures saved.Some? && saved.value != "" && saved.value in chats ==> r == saved.value
    ensures !(saved.Some? && saved.value != "" && saved.value in chats) ==> r == DefaultId
  {
    if saved.Some? && saved.value != "" && saved.value in chats then saved.value else DefaultId
  }

  /** The start-up copy of the current chat onto the screen
      (script.js:777-780). */
  function LoadCurrentChatData(s: Store): (r: Store)
    ensures r.chats == s.chats && r.order == s.order && r.current == s.current
    ensures s.current in s.chats ==> r.ui == s.chats[s.current].messages && r.history == s.chats[s.current].chatHistory
    ensures s.current !in s.chats ==> r == s
  {
    if s.current in s.chats then s.(ui := s.chats[s.current].messages, history := s.chats[s.current].chatHistory)
    else s
  }

  datatype View = ChatView | NoteView

  /** `loadCurrentView` (script.js:1211-1222): the note view only when that
      is what was saved. */
  function LoadCurrentView(saved: Option<string>): (v: View)
    ensures v == NoteView <==> saved == Some("note")
  {
    if saved.Some? && saved.value == "note" then NoteView else ChatView
  }

  // ---------------------------------------------------------------------
  // Properties

  /** Switching away and back restores the screen and the conversation,
      and leaves the chats as the first switch saved them. */
  lemma SwitchAwayAndBack(s: Store, id: string)
    requires Valid(s) && s.current != "" && s.current in s.chats
    ensures var back := SwitchTo(SwitchTo(s, id), s.current);
      back.ui == s.ui && back.history == s.history && back.current == s.current
      && back.chats == SwitchTo(s, id).chats
  {
    var away := SwitchTo(s, id);
    if id != "" && id in away.chats {
      assert away.chats[id].(messages := away.ui, chatHistory := away.history) == away.chats[id];
      assert SaveCurrent(away) == away.chats;
    }
  }

  /** After a chat has been renamed by its first message, later messages
      leave its name alone. */
  lemma RenamedOnlyOnce(s: Store, first: string, second: string, apiKey: string)
    requires Valid(s) && s.current in s.chats
    requires SendMessage(s, first, apiKey).1.Sent?
    ensures var s1 := SendMessage(s, first, apiKey).0;
      s.current in s1.chats && SendMessage(s1, second, apiKey).0.chats[s.current].name == s1.chats[s.current].name
  {
    var message := Trim(first);
    var renamed := RenameOnFirst(s, message);
    var s1 := SendMessage(s, first, apiKey).0;
    assert s1.chats[s.current].isFirstMessage == renamed.chats[s.current].isFirstMessage == false;
    if !AllWhitespace(second) && apiKey != "" {
      assert RenameOnFirst(s1, Trim(second)) == s1;
    }
  }

  /** A confirmed deletion of a chat that is not on screen changes nothing
      but the chats and their order. */
  lemma DeleteOtherChat(s: Store, id: string)
    requires Valid(s) && id != s.current
    ensures var r := DeleteChat(s, id, true);
      r.chats == s.chats - {id} && r.order == Without(s.order, id)
      && r.current == s.current && r.ui == s.ui && r.history == s.history
  {
  }

  /** Deleting the chat on screen while another remains shows the first
      remaining chat in key order; the other chats and their order are
      kept as they were. */
  lemma DeleteCurrentWithOthers(s: Store)
    requires Valid(s) && Without(s.order, s.current) != []
    ensures var next := Without(s.order, s.current)[0]; var r := DeleteChat(s, s.current, true);
      && next in s.chats && next != s.current
      && (exists i :: 0 <= i < |s.order| && s.order[i] == next && forall j :: 0 <= j < i ==> s.order[j] == s.current)
      && r.current == next && next in r.chats
      && r.ui == s.chats[next].messages && r.history == s.chats[next].chatHistory
      && r.chats == s.chats - {s.current} && r.order == Without(s.order, s.current)
  {
    var next := Without(s.order, s.current)[0];
    assert next in Without(s.order, s.current);
    WithoutFirst(s.order, s.current);
  }

  /** Deleting the last chat while it is on screen: a chat other than
      `'default'` is replaced by a fresh default chat; deleting `'default'`
      itself leaves no chat at all and keeps the screen as it was, because
      the switch saves the screen into the new default chat and reloads it
      before the key is deleted. */
  lemma DeleteLastChat(s: Store)
    requires Valid(s) && Without(s.order, s.current) == []
    ensures var r := DeleteChat(s, s.current, true);
      && r.current == DefaultId
      && (s.current != DefaultId ==> r.chats == map[DefaultId := DefaultChat] && r.ui == [] && r.history == [])
      && (s.current == DefaultId ==> r.chats == map[] && r.ui == s.ui && r.history == s.history)
  {
    var withDefault := Put(s, DefaultId, DefaultChat);
    var switched := SwitchTo(withDefault, DefaultId);
    assert forall k :: k in s.chats ==> k == s.current;
    if s.current != DefaultId {
      assert switched.chats - {s.current} == map[DefaultId := DefaultChat];
    } else {
      assert withDefault.chats.Keys == {DefaultId};
      assert switched.chats - {DefaultId} == map[];
    }
  }

  /** A message shown with `saveToStorage` is the last record on screen
      and, when the current chat exists, the chat holds the same messages. */
  lemma AddMessageSyncs(s: Store, message: string, isUser: bool, isError: bool)
    requires Valid(s) && s.current in s.chats
    ensures var r := AddMessage(s, message, isUser, isError, true);
      && r.ui[|r.ui| - 1] == Message(message, isUser, isError)
      && r.chats[s.current].messages == r.ui
      && |r.chats[s.current].lastMessage| <= 53
  {
  }

  /** The active id after loading always names a loaded chat, unless the
      saved data lacks the default chat. */
  lemma ActiveChatIsLoaded(saved: SavedChats, active: Option<string>)
    requires saved.Saved? ==> KeysInOrder(saved.keys, saved.entries)
    ensures var chats := LoadedChats(saved).0;
      LoadActiveChat(active, chats) in chats || (saved.Saved? && DefaultId !in saved.entries)
  {
  }
}
