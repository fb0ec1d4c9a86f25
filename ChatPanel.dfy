/** The chat side panel: a current chat session and a history of saved
    ones, a context line describing the selected cards, a simulated
    assistant reply, and turning chat text into new cards. */
module ChatPanel {
  import opened BoardTypes
  import opened Seqs
  import opened Text
  import opened Numbers
  import BoardStore

  datatype Role = User | Assistant

  function RoleName(r: Role): string {
    match r
    case User => "user"
    case Assistant => "assistant"
  }

  datatype ChatMessage = ChatMessage(id: string, role: Role, content: string)

  datatype ChatSession = ChatSession(id: string, title: string, messages: seq<ChatMessage>, context: Option<string>)

  const NoSelectionContext := "Nenhum card selecionado. Você pode conversar sobre o board em geral."

  // ---------------------------------------------------------------------
  // The context line

  /** A metadata value written into a template string. */
  function MetaText(v: MetaValue): string {
    match v
    case MStr(s) => s
    case MNum(n) => IntToString(n)
    case MBool(b) => if b then "true" else "false"
  }

  /** JavaScript truthiness of a metadata value. */
  predicate Truthy(v: MetaValue) {
    match v
    case MStr(s) => s != ""
    case MNum(n) => n != 0
    case MBool(b) => b
  }

  /** `metadata?.[key] || 'sem nome'`. */
  function NameOr(md: Option<Metadata>, key: string): string {
    if md.Some? && key in md.value && Truthy(md.value[key]) then MetaText(md.value[key]) else "sem nome"
  }

  function Quote(s: string): string {
    "\"" + s + "\""
  }

  /** The description of one card; image and PDF cards are named by the
      metadata entry `key`. */
  function Part(c: Card, key: string): string {
    match c.kind
    case Sticky => "Sticky " + Quote(c.content) + " (" + (if c.color.Some? then ColorName(c.color.value) else "sem cor") + ")"
    case Paper => "Paper " + Quote(c.content)
    case Image => "Imagem " + Quote(NameOr(c.metadata, key))
    case Link => "Link " + Quote(c.content)
    case Pdf => "PDF " + Quote(NameOr(c.metadata, key))
  }

  function PartOf(key: string): Card -> string {
    (c: Card) => Part(c, key)
  }

  /** The fixed message for no cards, otherwise one part per card, in
      order, after "Cards selecionados: ". */
  function ContextFrom(cards: seq<Card>, key: string): (r: string)
    ensures |cards| == 0 ==> r == NoSelectionContext
    ensures |cards| > 0 ==> "Cards selecionados: " <= r
  {
    if |cards| == 0 then NoSelectionContext
    else
      "Cards selecionados: " + Join(Map(cards, PartOf(key)), ", ")
  }

  /** generateContextFromCards as written: it names files by the entry
      `filename`. */
  function ContextAsWritten(cards: seq<Card>): (r: string)
    ensures |cards| == 0 ==> r == NoSelectionContext
    ensures |cards| > 0 ==> "Cards selecionados: " <= r
  {
    ContextFrom(cards, "filename")
  }

  /** The context line naming files by `fileName`, the entry uploads write
      and the image and PDF cards read. */
  function GenerateContext(cards: seq<Card>): (r: string)
    ensures |cards| == 0 ==> r == NoSelectionContext
    ensures |cards| > 0 ==> "Cards selecionados: " <= r
  {
    ContextFrom(cards, "fileName")
  }

  /** One more selected card adds ", " and its part at the end. */
  lemma ContextSnoc(cards: seq<Card>, c: Card, key: string)
    requires |cards| > 0
    ensures ContextFrom(cards + [c], key) == ContextFrom(cards, key) + ", " + Part(c, key)
  {
    MapSnoc(cards, PartOf(key), c);
    JoinSnoc(Map(cards, PartOf(key)), ", ", Part(c, key));
  }

  /** A single card's context is the prefix and its part. */
  lemma ContextSingle(c: Card, key: string)
    ensures ContextFrom([c], key) == "Cards selecionados: " + Part(c, key)
  {
    assert Map([c], PartOf(key)) == [Part(c, key)];
  }

  /** The part of a card made from an uploaded image or PDF: by the entry
      `filename`, which uploads never write, it is "sem nome"; by
      `fileName` it is the file's name, whenever that is not empty. */
  lemma UploadedParts(f: BoardStore.FileInfo, url: string, position: Position, id: string)
    requires StartsWith(f.mime, "image/") || f.mime == "application/pdf"
    ensures var c := BoardStore.NewCard(BoardStore.FileCardDraft(f, url, position), id);
            var kindLabel := if StartsWith(f.mime, "image/") then "Imagem " else "PDF ";
            && Part(c, "filename") == kindLabel + Quote("sem nome")
            && (f.name != "" ==> Part(c, "fileName") == kindLabel + Quote(f.name))
  {
    var c := BoardStore.NewCard(BoardStore.FileCardDraft(f, url, position), id);
    var md := BoardStore.FileMetadata(f);
    assert c.metadata == Some(md);
    assert c.kind == (if StartsWith(f.mime, "image/") then Image else Pdf);
    NamedPart(c, "filename");
    NamedPart(c, "fileName");
    assert NameOr(Some(md), "filename") == "sem nome";
    assert f.name != "" ==> NameOr(Some(md), "fileName") == f.name;
  }

  /** An image or PDF card's part is its kind and the name found under key. */
  lemma NamedPart(c: Card, key: string)
    requires c.kind == Image || c.kind == Pdf
    ensures Part(c, key) == (if c.kind == Image then "Imagem " else "PDF ") + Quote(NameOr(c.metadata, key))
  {
  }

  /** As written, the context of an uploaded image or PDF calls it
      "sem nome" whatever the file's name. */
  lemma AsWrittenLosesName(f: BoardStore.FileInfo, url: string, position: Position, id: string)
    requires StartsWith(f.mime, "image/") || f.mime == "application/pdf"
    ensures var c := BoardStore.NewCard(BoardStore.FileCardDraft(f, url, position), id);
            var kindLabel := if StartsWith(f.mime, "image/") then "Imagem " else "PDF ";
            ContextAsWritten([c]) == "Cards selecionados: " + kindLabel + Quote("sem nome")
  {
    var c := BoardStore.NewCard(BoardStore.FileCardDraft(f, url, position), id);
    UploadedParts(f, url, position, id);
    ContextSingle(c, "filename");
  }

  /** Read by `fileName`, the context names an uploaded image or PDF by the
      file's name. */
  lemma ContextNamesUpload(f: BoardStore.FileInfo, url: string, position: Position, id: string)
    requires StartsWith(f.mime, "image/") || f.mime == "application/pdf"
    requires f.name != ""
    ensures var c := BoardStore.NewCard(BoardStore.FileCardDraft(f, url, position), id);
            var kindLabel := if StartsWith(f.mime, "image/") then "Imagem " else "PDF ";
            GenerateContext([c]) == "Cards selecionados: " + kindLabel + Quote(f.name)
  {
    var c := BoardStore.NewCard(BoardStore.FileCardDraft(f, url, position), id);
    UploadedParts(f, url, position, id);
    ContextSingle(c, "fileName");
  }

  /** The sample image card: as written its part reads "sem nome", though
      its metadata names the file. */
  lemma SampleImageCounterexample()
    ensures BoardStore.InitialCards[5] == BoardStore.SampleImage
    ensures Part(BoardStore.SampleImage, "filename") == "Imagem " + Quote("sem nome")
    ensures Part(BoardStore.SampleImage, "fileName") == "Imagem " + Quote("imagem-exemplo.jpg")
  {
    var md := BoardStore.SampleImage.metadata.value;
    assert "filename"[4] == 'n' && "fileName"[4] == 'N' && "fileSize"[4] == 'S';
    assert NameOr(Some(md), "filename") == "sem nome";
    assert NameOr(Some(md), "fileName") == "imagem-exemplo.jpg";
  }

  // ---------------------------------------------------------------------
  // Messages and papers

  /** The simulated reply to a message. */
  function ReplyText(text: string, anySelected: bool): string {
    "Entendi sua mensagem sobre: " + Quote(text) + ". Como posso ajudar com "
      + (if anySelected then "os cards selecionados" else "o board") + "?"
  }

  function MessageLine(m: ChatMessage): string {
    RoleName(m.role) + ": " + m.content
  }

  /** The whole chat as paper content: "role: content" per message, joined
      by blank lines. */
  function FullChatContent(messages: seq<ChatMessage>): string {
    Join(Map(messages, MessageLine), "\n\n")
  }

  /** One more message adds a blank line and its line at the end. */
  lemma FullChatSnoc(messages: seq<ChatMessage>, m: ChatMessage)
    requires |messages| > 0
    ensures FullChatContent(messages + [m]) == FullChatContent(messages) + "\n\n" + MessageLine(m)
  {
    MapSnoc(messages, MessageLine, m);
    JoinSnoc(Map(messages, MessageLine), "\n\n", MessageLine(m));
  }

  /** A send timer not yet fired: the chat it extends, the text it answers
      and whether any card was selected. */
  datatype PendingReply = PendingReply(chat: ChatSession, text: string, anySelected: bool)

  /** `!inputMessage.trim() || isLoading`. */
  predicate SendDisabled(inputMessage: string, isLoading: bool) {
    Trim(inputMessage) == "" || isLoading
  }

  /** The send button is enabled only for text that is not blank. */
  lemma SendEnabledMeansText(inputMessage: string, isLoading: bool)
    ensures !SendDisabled(inputMessage, isLoading) <==> !IsBlank(inputMessage) && !isLoading
  {
    TrimSpec(inputMessage);
  }

  class ChatPanelState {
    var currentChat: Option<ChatSession>
    var chatHistory: seq<ChatSession>
    var inputMessage: string
    var isLoading: bool
    var showHistory: bool
    var selectedText: string
    /** Reply timers in the order they were set, each firing after one
        second, so the oldest fires first. */
    var pendingReplies: seq<PendingReply>

    constructor()
      ensures currentChat.None? && chatHistory == [] && inputMessage == "" && !isLoading
      ensures !showHistory && selectedText == "" && pendingReplies == []
    {
      currentChat := None;
      chatHistory := [];
      inputMessage := "";
      isLoading := false;
      showHistory := false;
      selectedText := "";
      pendingReplies := [];
    }

    /** The effect that starts a chat when the panel is open without one,
        with the context of the selected cards as the program builds it
        (files named by the `filename` entry). */
    method OpenEffect(isOpen: bool, chatId: string, title: string, selectedCards: seq<Card>)
      modifies this
      ensures isOpen && old(currentChat).None? ==>
                currentChat == Some(ChatSession(chatId, title, [], Some(ContextAsWritten(selectedCards))))
      ensures !(isOpen && old(currentChat).None?) ==> currentChat == old(currentChat)
      ensures chatHistory == old(chatHistory) && inputMessage == old(inputMessage) && isLoading == old(isLoading)
      ensures showHistory == old(showHistory) && selectedText == old(selectedText) && pendingReplies == old(pendingReplies)
    {
      if isOpen && currentChat.None? {
        currentChat := Some(ChatSession(chatId, title, [], Some(ContextAsWritten(selectedCards))));
      }
    }

    method SetInputMessage(text: string)
      modifies this
      ensures inputMessage == text
      ensures currentChat == old(currentChat) && chatHistory == old(chatHistory) && isLoading == old(isLoading)
      ensures showHistory == old(showHistory) && selectedText == old(selectedText) && pendingReplies == old(pendingReplies)
    {
      inputMessage := text;
    }

    /** handleSendMessage: blank input or no current chat changes nothing;
        otherwise the user's message is appended, the input cleared, the
        panel marked loading and a reply timer set. */
    method SendMessage(messageId: string, selectedCount: nat)
      modifies this
      ensures IsBlank(old(inputMessage)) || old(currentChat).None? ==>
                && currentChat == old(currentChat) && inputMessage == old(inputMessage)
                && isLoading == old(isLoading) && pendingReplies == old(pendingReplies)
      ensures !IsBlank(old(inputMessage)) && old(currentChat).Some? ==>
                var chat := old(currentChat).value;
                var updated := chat.(messages := chat.messages + [ChatMessage(messageId, User, old(inputMessage))]);
                && currentChat == Some(updated)
                && inputMessage == "" && isLoading
                && pendingReplies == old(pendingReplies) + [PendingReply(updated, old(inputMessage), selectedCount > 0)]
      ensures chatHistory == old(chatHistory) && showHistory == old(showHistory) && selectedText == old(selectedText)
    {
      TrimSpec(inputMessage);
      if Trim(inputMessage) == "" || currentChat.None? {
        return;
      }
      var chat := currentChat.value;
      var updated := chat.(messages := chat.messages + [ChatMessage(messageId, User, inputMessage)]);
      currentChat := Some(updated);
      pendingReplies := pendingReplies + [PendingReply(updated, inputMessage, selectedCount > 0)];
      inputMessage := "";
      isLoading := true;
    }

    /** The oldest reply timer fires: the chat it captured, with the reply
        appended, becomes the current chat and loading ends. */
    method DeliverReply(replyId: string)
      modifies this
      ensures old(pendingReplies) == [] ==> currentChat == old(currentChat) && pendingReplies == [] && isLoading == old(isLoading)
      ensures old(pendingReplies) != [] ==>
                var p := old(pendingReplies)[0];
                && currentChat == Some(p.chat.(messages := p.chat.messages + [ChatMessage(replyId, Assistant, ReplyText(p.text, p.anySelected))]))
                && !isLoading && pendingReplies == old(pendingReplies)[1..]
      ensures chatHistory == old(chatHistory) && inputMessage == old(inputMessage)
      ensures showHistory == old(showHistory) && selectedText == old(selectedText)
    {
      if pendingReplies != [] {
        var p := pendingReplies[0];
        currentChat := Some(p.chat.(messages := p.chat.messages + [ChatMessage(replyId, Assistant, ReplyText(p.text, p.anySelected))]));
        isLoading := false;
        pendingReplies := pendingReplies[1..];
      }
    }

    /** saveCurrentChat: a chat with messages goes to the front of the
        history, the panel has no current chat and asks to be closed;
        otherwise nothing happens. */
    method SaveCurrentChat() returns (closeRequested: bool)
      modifies this
      ensures closeRequested <==> old(currentChat).Some? && |old(currentChat).value.messages| > 0
      ensures closeRequested ==> chatHistory == [old(currentChat).value] + old(chatHistory) && currentChat.None?
      ensures !closeRequested ==> chatHistory == old(chatHistory) && currentChat == old(currentChat)
      ensures inputMessage == old(inputMessage) && isLoading == old(isLoading) && showHistory == old(showHistory)
      ensures selectedText == old(selectedText) && pendingReplies == old(pendingReplies)
    {
      closeRequested := currentChat.Some? && |currentChat.value.messages| > 0;
      if closeRequested {
        chatHistory := [currentChat.value] + chatHistory;
        currentChat := None;
      }
    }

    method OpenChatFromHistory(chat: ChatSession)
      modifies this
      ensures currentChat == Some(chat) && !showHistory
      ensures chatHistory == old(chatHistory) && inputMessage == old(inputMessage) && isLoading == old(isLoading)
      ensures selectedText == old(selectedText) && pendingReplies == old(pendingReplies)
    {
      currentChat := Some(chat);
      showHistory := false;
    }

    method ToggleHistory()
      modifies this
      ensures showHistory == !old(showHistory)
      ensures currentChat == old(currentChat) && chatHistory == old(chatHistory) && inputMessage == old(inputMessage)
      ensures isLoading == old(isLoading) && selectedText == old(selectedText) && pendingReplies == old(pendingReplies)
    {
      showHistory := !showHistory;
    }

    /** handleTextSelection: a selection that is not blank is kept. */
    method SelectText(selection: string)
      modifies this
      ensures selectedText == if IsBlank(selection) then old(selectedText) else selection
      ensures currentChat == old(currentChat) && chatHistory == old(chatHistory) && inputMessage == old(inputMessage)
      ensures isLoading == old(isLoading) && showHistory == old(showHistory) && pendingReplies == old(pendingReplies)
    {
      TrimSpec(selection);
      if Trim(selection) != "" {
        selectedText := selection;
      }
    }

    method ClearSelectedText()
      modifies this
      ensures selectedText == ""
      ensures currentChat == old(currentChat) && chatHistory == old(chatHistory) && inputMessage == old(inputMessage)
      ensures isLoading == old(isLoading) && showHistory == old(showHistory) && pendingReplies == old(pendingReplies)
    {
      selectedText := "";
    }

    /** handleCreateSticker: the content passed to onCreateSticker, which is
        the selected text when it is not blank, after which the selection
        is cleared. */
    method CreateSticker() returns (created: Option<string>)
      modifies this
      ensures created.Some? <==> !IsBlank(old(selectedText))
      ensures created.Some? ==> created.value == old(selectedText) && selectedText == ""
      ensures created.None? ==> selectedText == old(selectedText)
      ensures currentChat == old(currentChat) && chatHistory == old(chatHistory) && inputMessage == old(inputMessage)
      ensures isLoading == old(isLoading) && showHistory == old(showHistory) && pendingReplies == old(pendingReplies)
    {
      TrimSpec(selectedText);
      if Trim(selectedText) != "" {
        created := Some(selectedText);
        selectedText := "";
      } else {
        created := None;
      }
    }

    /** handleCreatePaper: the whole chat or the selected text, passed to
        onCreatePaper when it is not blank; only the selected-text path
        clears the selection. */
    method CreatePaper(useFullChat: bool) returns (created: Option<string>)
      modifies this
      ensures var content := if !useFullChat then old(selectedText)
                             else if currentChat.Some? then FullChatContent(currentChat.value.messages)
                             else "";
              && (created.Some? <==> !IsBlank(content))
              && (created.Some? ==> created.value == content)
      ensures selectedText == if created.Some? && !useFullChat then "" else old(selectedText)
      ensures currentChat == old(currentChat) && chatHistory == old(chatHistory) && inputMessage == old(inputMessage)
      ensures isLoading == old(isLoading) && showHistory == old(showHistory) && pendingReplies == old(pendingReplies)
    {
      var content := if !useFullChat then selectedText
                     else if currentChat.Some? then FullChatContent(currentChat.value.messages)
                     else "";
      TrimSpec(content);
      if Trim(content) != "" {
        created := Some(content);
        if !useFullChat {
          selectedText := "";
        }
      } else {
        created := None;
      }
    }
  }
}
