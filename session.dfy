/** The chat store's mutable globals (script.js:17, 23-26) as an object
    whose methods are proved against the value-level operations of
    `ChatStore`. */
module Session {
  import opened Wrappers
  import opened Text
  import opened ChatStore

  class ChatSession {
    var chats: map<string, Chat>
    var order: seq<string>
    var currentChatId: string
    var uiHistory: seq<Message>
    var chatHistory: seq<Turn>
    var currentView: View

    function Model(): Store
      reads this
    {
      Store(chats, order, currentChatId, uiHistory, chatHistory)
    }

    predicate Valid()
      reads this
    {
      ChatStore.Valid(Model())
    }

    /** The globals' initial values (script.js:17, 23-26). */
    constructor ()
      ensures Valid() && Model() == Store(map[], [], DefaultId, [], []) && currentView == ChatView
    {
      chats := map[];
      order := [];
      currentChatId := DefaultId;
      uiHistory := [];
      chatHistory := [];
      currentView := ChatView;
    }

    /** `chats[k] = c`, keeping the key order of a JavaScript object. */
    method Assign(k: string, c: Chat)
      requires Valid()
      modifies this
      ensures Valid() && Model() == Put(old(Model()), k, c) && currentView == old(currentView)
    {
      if k !in chats {
        order := order + [k];
      }
      chats := chats[k := c];
    }

    method SwitchToChat(chatId: string)
      requires Valid()
      modifies this
      ensures Valid() && Model() == SwitchTo(old(Model()), chatId) && currentView == old(currentView)
    {
      if currentChatId != "" && currentChatId in chats {
        chats := chats[currentChatId := chats[currentChatId].(messages := uiHistory, chatHistory := chatHistory)];
      }
      currentChatId := chatId;
      if chatId in chats {
        uiHistory := chats[chatId].messages;
        chatHistory := chats[chatId].chatHistory;
      } else {
        uiHistory := [];
        chatHistory := [];
      }
    }

    method CreateNewChat(chatId: string)
      requires Valid()
      modifies this
      ensures Valid() && Model() == ChatStore.CreateNewChat(old(Model()), chatId) && currentView == old(currentView)
    {
      Assign(chatId, Chat(chatId, NewChatName, [], [], NewChatText, true));
      SwitchToChat(chatId);
    }

    method AddMessage(message: string, isUser: bool, isError: bool, saveToStorage: bool)
      requires Valid()
      modifies this
      ensures Valid() && Model() == ChatStore.AddMessage(old(Model()), message, isUser, isError, saveToStorage)
      ensures currentView == old(currentView)
    {
      if saveToStorage {
        uiHistory := uiHistory + [Message(message, isUser, isError)];
        if currentChatId in chats {
          chats := chats[currentChatId := chats[currentChatId].(lastMessage := Preview(message, isUser), messages := uiHistory)];
        }
      }
    }

    method SendMessage(input: string, apiKey: string) returns (outcome: SendOutcome)
      requires Valid()
      modifies this
      ensures Valid() && (Model(), outcome) == ChatStore.SendMessage(old(Model()), input, apiKey)
      ensures currentView == old(currentView)
    {
      var message := Trim(input);
      if message == "" {
        return EmptyMessage;
      }
      if apiKey == "" {
        return MissingApiKey;
      }
      if currentChatId in chats && chats[currentChatId].isFirstMessage {
        chats := chats[currentChatId := chats[currentChatId].(name := ChatName(message), isFirstMessage := false)];
      }
      AddMessage(message, true, false, true);
      chatHistory := chatHistory + [Turn(User, message)];
      outcome := Sent(message);
    }

    method ReceiveReply(reply: Result<string, string>)
      requires Valid()
      modifies this
      ensures Valid() && Model() == ChatStore.ReceiveReply(old(Model()), reply) && currentView == old(currentView)
    {
      match reply
      case Ok(text) =>
        chatHistory := chatHistory + [Turn(Assistant, text)];
        if currentChatId in chats {
          chats := chats[currentChatId := chats[currentChatId].(chatHistory := chatHistory)];
        }
        AddMessage(text, false, false, true);
      case Err(message) =>
        AddMessage(message, false, true, true);
    }

    method ClearCurrentChat(confirmed: bool)
      requires Valid()
      modifies this
      ensures Valid() && Model() == ChatStore.ClearCurrentChat(old(Model()), confirmed) && currentView == old(currentView)
    {
      if confirmed {
        uiHistory := [];
        chatHistory := [];
        if currentChatId in chats {
          chats := chats[currentChatId := chats[currentChatId].(messages := [], chatHistory := [], lastMessage := ReadyText)];
        }
      }
    }

    method DeleteChat(chatId: string, confirmed: bool)
      requires Valid()
      modifies this
      ensures Valid() && Model() == ChatStore.DeleteChat(old(Model()), chatId, confirmed) && currentView == old(currentView)
    {
      if confirmed {
        if chatId == currentChatId {
          var remainingChats := Without(order, chatId);
          if |remainingChats| > 0 {
            SwitchToChat(remainingChats[0]);
          } else {
            Assign(DefaultId, DefaultChat);
            SwitchToChat(DefaultId);
          }
        }
        chats := chats - {chatId};
        order := Without(order, chatId);
      }
    }

    /** `loadChats`: take the parsed object and patch each chat in a
        `forEach`, or fall back to the default chat. */
    method LoadChats(saved: SavedChats)
      requires saved.Saved? ==> KeysInOrder(saved.keys, saved.entries)
      modifies this
      ensures (chats, order) == LoadedChats(saved)
      ensures currentChatId == old(currentChatId) && uiHistory == old(uiHistory) && chatHistory == old(chatHistory)
      ensures currentView == old(currentView)
    {
      match saved
      case Saved(keys, entries) =>
        chats := map[];
        var i := 0;
        while i < |keys|
          invariant 0 <= i <= |keys|
          invariant chats.Keys == set k | k in keys[..i]
          invariant forall k :: k in chats ==> k in entries && chats[k] == Restore(entries[k])
          invariant currentChatId == old(currentChatId) && uiHistory == old(uiHistory)
          invariant chatHistory == old(chatHistory) && currentView == old(currentView)
        {
          assert keys[..i + 1] == keys[..i] + [keys[i]];
          chats := chats[keys[i] := Restore(entries[keys[i]])];
          i := i + 1;
        }
        assert keys[..i] == keys;
        assert chats == RestoreAll(entries);
        order := keys;
      case _ =>
        chats := map[DefaultId := DefaultChat];
        order := [DefaultId];
    }

    method LoadActiveChat(saved: Option<string>)
      modifies this
      ensures currentChatId == ChatStore.LoadActiveChat(saved, chats)
      ensures chats == old(chats) && order == old(order) && uiHistory == old(uiHistory) && chatHistory == old(chatHistory)
      ensures currentView == old(currentView)
    {
      if saved.Some? && saved.value != "" && saved.value in chats {
        currentChatId := saved.value;
      } else {
        currentChatId := DefaultId;
      }
    }

    method LoadCurrentChatData()
      modifies this
      ensures Model() == ChatStore.LoadCurrentChatData(old(Model())) && currentView == old(currentView)
    {
      if currentChatId in chats {
        uiHistory := chats[currentChatId].messages;
        chatHistory := chats[currentChatId].chatHistory;
      }
    }

    method LoadCurrentView(saved: Option<string>)
      modifies this
      ensures currentView == ChatStore.LoadCurrentView(saved) && Model() == old(Model())
    {
      if saved.Some? && (saved.value == "chat" || saved.value == "note") {
        currentView := if saved.value == "note" then NoteView else ChatView;
      } else {
        currentView := ChatView;
      }
    }
  }
}
