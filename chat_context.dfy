/** The chat registry of the browser session: the id of the chat on screen and
    the list of known chats, each operation replacing the list by a keyed update
    of it. */
module ChatContext {
  import opened Messages

  datatype Chat = Chat(id: string, title: string, messages: seq<UIMessage>)

  const NewChatTitle: string := "New Chat"

  function ChatIds(chats: seq<Chat>): set<string> {
    set c <- chats :: c.id
  }

  /** No two chats share an id. */
  ghost predicate UniqueIds(chats: seq<Chat>) {
    forall i, j :: 0 <= i < j < |chats| ==> chats[i].id != chats[j].id
  }

  /** `chats` with `message` appended to every chat whose id is `chatId`. */
  function WithMessage(chats: seq<Chat>, chatId: string, message: UIMessage): (updated: seq<Chat>)
    ensures |updated| == |chats|
    ensures forall i :: 0 <= i < |chats| ==>
      updated[i].id == chats[i].id && updated[i].title == chats[i].title
    ensures forall i :: 0 <= i < |chats| && chats[i].id == chatId ==>
      updated[i].messages == chats[i].messages + [message]
    ensures forall i :: 0 <= i < |chats| && chats[i].id != chatId ==> updated[i] == chats[i]
    decreases |chats|
  {
    if chats == [] then []
    else
      var c := chats[0];
      [if c.id == chatId then c.(messages := c.messages + [message]) else c]
        + WithMessage(chats[1..], chatId, message)
  }

  /** `chats` with the title of every chat whose id is `chatId` set to `title`. */
  function WithTitle(chats: seq<Chat>, chatId: string, title: string): (updated: seq<Chat>)
    ensures |updated| == |chats|
    ensures forall i :: 0 <= i < |chats| ==>
      updated[i].id == chats[i].id && updated[i].messages == chats[i].messages
    ensures forall i :: 0 <= i < |chats| && chats[i].id == chatId ==> updated[i].title == title
    ensures forall i :: 0 <= i < |chats| && chats[i].id != chatId ==> updated[i] == chats[i]
    decreases |chats|
  {
    if chats == [] then []
    else
      var c := chats[0];
      [if c.id == chatId then c.(title := title) else c] + WithTitle(chats[1..], chatId, title)
  }

  /** A message for an unknown chat changes nothing. */
  lemma WithMessageUnknownId(chats: seq<Chat>, chatId: string, message: UIMessage)
    requires chatId !in ChatIds(chats)
    ensures WithMessage(chats, chatId, message) == chats
  {
  }

  /** A title for an unknown chat changes nothing. */
  lemma WithTitleUnknownId(chats: seq<Chat>, chatId: string, title: string)
    requires chatId !in ChatIds(chats)
    ensures WithTitle(chats, chatId, title) == chats
  {
  }

  /** Appending a message keeps the set of ids, so it keeps ids unique. */
  lemma WithMessageKeepsIds(chats: seq<Chat>, chatId: string, message: UIMessage)
    ensures ChatIds(WithMessage(chats, chatId, message)) == ChatIds(chats)
    ensures UniqueIds(chats) ==> UniqueIds(WithMessage(chats, chatId, message))
  {
  }

  /** Retitling keeps the set of ids, so it keeps ids unique. */
  lemma WithTitleKeepsIds(chats: seq<Chat>, chatId: string, title: string)
    ensures ChatIds(WithTitle(chats, chatId, title)) == ChatIds(chats)
    ensures UniqueIds(chats) ==> UniqueIds(WithTitle(chats, chatId, title))
  {
  }

  /** The context's state. Chat ids are drawn fresh by the caller (the source
      draws a random version-4 UUID), which keeps them unique. */
  class ChatProvider {
    var currentChatId: string
    var chats: seq<Chat>

    ghost predicate Valid()
      reads this
    {
      UniqueIds(chats)
    }

    /** Initially some fresh id is selected and there are no chats. */
    constructor (initialChatId: string)
      ensures Valid()
      ensures currentChatId == initialChatId && chats == []
    {
      currentChatId := initialChatId;
      chats := [];
    }

    /** Selects `id`, known or not. */
    method SetCurrentChatId(id: string)
      modifies this`currentChatId
      ensures currentChatId == id
      ensures chats == old(chats)
    {
      currentChatId := id;
    }

    /** Appends an empty chat titled "New Chat" under a fresh id and selects it. */
    method CreateNewChat(newChatId: string)
      requires Valid()
      requires newChatId !in ChatIds(chats)
      modifies this
      ensures Valid()
      ensures currentChatId == newChatId
      ensures chats == old(chats) + [Chat(newChatId, NewChatTitle, [])]
    {
      SetCurrentChatId(newChatId);
      chats := chats + [Chat(newChatId, NewChatTitle, [])];
      forall i | 0 <= i < |chats| - 1 ensures chats[i].id != newChatId {
        assert chats[i] in old(chats);
      }
    }

    /** Appends `message` to the chat with id `chatId`, if there is one. */
    method AddMessageToChat(chatId: string, message: UIMessage)
      requires Valid()
      modifies this`chats
      ensures Valid()
      ensures chats == WithMessage(old(chats), chatId, message)
      ensures currentChatId == old(currentChatId)
    {
      WithMessageKeepsIds(chats, chatId, message);
      chats := WithMessage(chats, chatId, message);
    }

    /** Retitles the chat with id `chatId`, if there is one, after the first
        message of `messages`. */
    method UpdateChatTitle(chatId: string, messages: seq<CoreMessage>)
      requires Valid()
      modifies this`chats
      ensures Valid()
      ensures chats == WithTitle(old(chats), chatId, GetTitleFromChat(messages))
      ensures currentChatId == old(currentChatId)
    {
      var title := GetTitleFromChat(messages);
      WithTitleKeepsIds(chats, chatId, title);
      chats := WithTitle(chats, chatId, title);
    }
  }

  /** Two chats created one after the other are distinct, both empty and
      titled "New Chat", and the second one is selected. */
  method CreateTwoChats(provider: ChatProvider, first: string, second: string)
    requires provider.Valid()
    requires first !in ChatIds(provider.chats) && second !in ChatIds(provider.chats) && first != second
    modifies provider
    ensures provider.Valid()
    ensures provider.currentChatId == second
    ensures provider.chats == old(provider.chats) + [Chat(first, NewChatTitle, []), Chat(second, NewChatTitle, [])]
  {
    provider.CreateNewChat(first);
    assert second !in ChatIds(provider.chats);
    provider.CreateNewChat(second);
  }
}
