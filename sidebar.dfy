/** The sidebar's string helpers, the label shown for a chat in the history
    list, and what deleting a chat does to the selection. */
module Sidebar {
  import opened Messages
  import opened ChatContext

  const TitleMaxLength: nat := 15
  const Ellipsis: string := "..."
  const UntitledChatLabel: string := "Untitled Chat"

  function Min(a: nat, b: nat): nat {
    if a <= b then a else b
  }

  /** A title longer than `maxLength` is cut to its first `maxLength`
      characters followed by "..."; a shorter one, and the empty title, are
      kept. */
  function TruncateTitle(title: string, maxLength: nat := TitleMaxLength): (shown: string)
    ensures |title| <= maxLength ==> shown == title
    ensures |title| > maxLength ==> |shown| == maxLength + 3
    ensures shown[..Min(|title|, maxLength)] == title[..Min(|title|, maxLength)]
    ensures |title| > maxLength ==> shown[maxLength..] == Ellipsis
  {
    if title == "" then ""
    else if |title| > maxLength then title[..maxLength] + Ellipsis
    else title
  }

  /** Truncating a truncated title changes nothing more. */
  lemma TruncateTitleIdempotent(title: string, maxLength: nat)
    ensures TruncateTitle(TruncateTitle(title, maxLength), maxLength) == TruncateTitle(title, maxLength)
  {
  }

  /** The empty address is shown as nothing; any other as its first (up to)
      six characters, "..." and its last (up to) four characters. */
  function FormatWalletAddress(address: string): (shown: string)
    ensures address == "" ==> shown == ""
    ensures address != "" ==> |shown| == Min(|address|, 6) + 3 + Min(|address|, 4)
    ensures address != "" ==> shown[..Min(|address|, 6)] == address[..Min(|address|, 6)]
    ensures address != "" ==> shown[Min(|address|, 6)..Min(|address|, 6) + 3] == Ellipsis
    ensures address != "" ==> shown[|shown| - Min(|address|, 4)..] == address[|address| - Min(|address|, 4)..]
  {
    if address == "" then ""
    else
      // `slice(-4)` starts four characters from the end, or at 0 for a shorter string
      var tailStart := if |address| >= 4 then |address| - 4 else 0;
      address[..Min(|address|, 6)] + Ellipsis + address[tailStart..]
  }

  /** An address of at least ten characters is shown in thirteen; one of
      exactly ten loses nothing but gains the "..." in the middle. */
  lemma FormatWalletAddressLong(address: string)
    requires |address| >= 10
    ensures |FormatWalletAddress(address)| == 13
    ensures |address| == 10 ==>
      FormatWalletAddress(address)[..6] + FormatWalletAddress(address)[9..] == address
  {
  }

  /** The label of a chat in the history list. */
  function ChatLabel(title: string): (shown: string)
    ensures shown != ""
    ensures title == "" ==> shown == UntitledChatLabel
    ensures title != "" ==> shown == TruncateTitle(title)
  {
    TruncateTitle(if title == "" then UntitledChatLabel else title)
  }

  /** A chat whose first message has empty content gets the empty title, and
      is listed as "Untitled Chat". */
  lemma EmptyFirstMessageLabel(messages: seq<CoreMessage>)
    requires Entries(messages) != []
    requires Entries(messages)[0].RoleMessage? && ContentText(Entries(messages)[0].content) == ""
    ensures ChatLabel(GetTitleFromChat(messages)) == UntitledChatLabel
  {
  }

  /** The selection once the handler deleting chat `deletedId` has finished.
      `current` is the selection when the delete request settles, `captured`
      the selection the handler was rendered with (the one it compares, since
      the comparison reads the value closed over before the request), and
      `deleted` whether the request succeeded: a rejected request throws out
      of the handler before the comparison. */
  function SelectionAfterDelete(current: string, captured: string, deletedId: string, deleted: bool): (selected: string)
    ensures selected == current || selected == ""
    ensures !deleted ==> selected == current
    ensures captured != deletedId ==> selected == current
    ensures deleted && captured == deletedId ==> selected == ""
  {
    if deleted && captured == deletedId then "" else current
  }

  /** When the selection did not change while the request was pending, a
      successful delete clears it exactly when the deleted chat was the
      selected one (or nothing was selected), and a failed one keeps it. */
  lemma SelectionAfterDeleteUnchanged(current: string, deletedId: string, deleted: bool)
    ensures deleted ==>
      (SelectionAfterDelete(current, current, deletedId, deleted) == "" <==> current == deletedId || current == "")
    ensures !deleted ==> SelectionAfterDelete(current, current, deletedId, deleted) == current
  {
  }

  /** A chat selected while the delete of the previously selected chat was
      pending is cleared by the delete once it succeeds. */
  lemma SelectionAfterDeleteStale(current: string, deletedId: string)
    requires current != deletedId
    ensures SelectionAfterDelete(current, deletedId, deletedId, true) == ""
    ensures SelectionAfterDelete(current, current, deletedId, true) == current
  {
  }

  /** The delete handler, after its request to the server has settled with
      outcome `deleted`. The selection is cleared when the request succeeded
      and the chat the handler was rendered with selected is the deleted one;
      a failed request leaves the selection as it is. The local list of chats
      is never touched: after a successful delete the history is fetched
      again from the server, and the prompts-left count is refetched; neither
      is part of this model. */
  method HandleChatDelete(provider: ChatProvider, chatId: string, capturedChatId: string, deleted: bool)
    modifies provider`currentChatId
    ensures provider.currentChatId == SelectionAfterDelete(old(provider.currentChatId), capturedChatId, chatId, deleted)
    ensures provider.chats == old(provider.chats)
  {
    if deleted && capturedChatId == chatId {
      provider.SetCurrentChatId("");
    }
  }
}
