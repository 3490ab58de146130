/**
 * The messages page: a fixed list of conversations, one of which can be
 * selected, a draft message, the page's strings in the current language,
 * and the page's own post list.
 */
module Messages {
  import opened Common
  import PagePosts

  datatype Conversation = Conversation(id: int, name: string, lastMessage: string)

  /** The entry of the page's translation table for one language. */
  datatype Strings = Strings(messages: string, typeMessage: string, send: string)

  /**
   * The names every object literal inherits from `Object.prototype`: a
   * property lookup with one of them finds a function (or, for
   * `__proto__`, the prototype itself), never a table entry.
   */
  const ObjectPrototypeMembers: set<string> := {
    "constructor", "hasOwnProperty", "isPrototypeOf", "propertyIsEnumerable",
    "toLocaleString", "toString", "valueOf", "__proto__",
    "__defineGetter__", "__defineSetter__", "__lookupGetter__", "__lookupSetter__" }

  /**
   * What `translations[language]` yields: one of the table's own entries;
   * an inherited member, on which `t.messages` and the other labels are
   * `undefined` (the page renders with empty labels); or `undefined`
   * itself, on which reading `t.messages` throws.
   */
  datatype Lookup = Entry(strings: Strings) | Inherited | Missing

  /**
   * `translations[language]`. The table's own entries are "pt-BR" and
   * "en-US"; the names inherited from `Object.prototype` find an inherited
   * member; every other string finds nothing.
   */
  function Translations(language: string): (r: Lookup)
    ensures r.Entry? <==> language == "pt-BR" || language == "en-US"
    ensures r.Entry? ==> r.strings.messages != "" && r.strings.typeMessage != "" && r.strings.send != ""
    ensures r.Inherited? <==> language in ObjectPrototypeMembers
    ensures r.Missing? <==> language != "pt-BR" && language != "en-US" && language !in ObjectPrototypeMembers
  {
    if language == "pt-BR" then Entry(Strings("Mensagens", "Digite sua mensagem...", "Enviar"))
    else if language == "en-US" then Entry(Strings("Messages", "Type your message...", "Send"))
    else if language in ObjectPrototypeMembers then Inherited
    else Missing
  }

  /**
   * The line `handleSendMessage` writes to the console: the fixed lead-in,
   * the recipient's name, and the message exactly as typed at the end.
   */
  function SendLog(to: Conversation, message: string): (r: string)
    ensures |r| == 21 + |to.name| + |message|
    ensures r[..19] == "Sending message to " && r[19..19 + |to.name|] == to.name
    ensures r[19 + |to.name|..21 + |to.name|] == ": "
    ensures r[|r| - |message|..] == message
  {
    "Sending message to " + to.name + ": " + message
  }

  /**
   * `handleSendMessage` as a function of the draft and the selection: a
   * draft that is not blank, with a conversation selected, is sent (the
   * console line is returned) and the draft is cleared; otherwise nothing
   * is sent and the draft is kept as it is.
   */
  function Send(draft: string, selected: Option<Conversation>): (r: (string, Option<string>))
    ensures r.1.Some? <==> !IsBlank(draft) && selected.Some?
    ensures r.1.Some? ==> r.0 == "" && r.1.value == SendLog(selected.value, draft)
    ensures r.1.None? ==> r.0 == draft
  {
    if !IsBlank(draft) && selected.Some? then ("", Some(SendLog(selected.value, draft)))
    else (draft, None)
  }

  /** The draft is cleared exactly when a message goes out; a non-empty draft is only cleared by sending. */
  lemma DraftClearedOnlyBySending(draft: string, selected: Option<Conversation>)
    requires draft != ""
    ensures Send(draft, selected).0 == "" <==> Send(draft, selected).1.Some?
  {
  }

  /** The state of the messages page component. */
  class MessagesPage {
    const conversations: seq<Conversation>
    var selectedConversation: Option<Conversation>
    var newMessage: string
    var posts: seq<PagePosts.Post>

    /** Post ids are 1..n, and only a listed conversation can be selected. */
    ghost predicate Valid()
      reads this
    {
      && OneToN(PagePosts.Ids(posts))
      && (selectedConversation.Some? ==> selectedConversation.value in conversations)
    }

    constructor ()
      ensures Valid()
      ensures conversations == [ Conversation(1, "John Doe", "Hey, how are you?"),
                                 Conversation(2, "Jane Smith", "Did you finish the assignment?") ]
      ensures selectedConversation.None? && newMessage == "" && posts == []
    {
      conversations := [ Conversation(1, "John Doe", "Hey, how are you?"),
                         Conversation(2, "Jane Smith", "Did you finish the assignment?") ];
      selectedConversation := None;
      newMessage := "";
      posts := [];
    }

    /** A click on a conversation in the list. */
    method Select(c: Conversation)
      requires Valid() && c in conversations
      modifies this
      ensures Valid()
      ensures selectedConversation == Some(c)
      ensures newMessage == old(newMessage) && posts == old(posts)
    {
      selectedConversation := Some(c);
    }

    /** The message field's `onChange`. */
    method SetNewMessage(value: string)
      requires Valid()
      modifies this
      ensures Valid()
      ensures newMessage == value
      ensures selectedConversation == old(selectedConversation) && posts == old(posts)
    {
      newMessage := value;
    }

    /** `handleSendMessage`; `logged` is what it writes to the console, if anything. */
    method SendMessage() returns (logged: Option<string>)
      requires Valid()
      modifies this
      ensures Valid()
      ensures (newMessage, logged) == Send(old(newMessage), old(selectedConversation))
      ensures selectedConversation == old(selectedConversation) && posts == old(posts)
    {
      if !IsBlank(newMessage) && selectedConversation.Some? {
        logged := Some(SendLog(selectedConversation.value, newMessage));
        newMessage := "";
      } else {
        logged := None;
      }
    }

    /** `handleCreatePost`, called by the shell's composer. */
    method CreatePost(content: string)
      requires Valid()
      modifies this
      ensures Valid()
      ensures posts == PagePosts.PrependPost(old(posts), content)
      ensures selectedConversation == old(selectedConversation) && newMessage == old(newMessage)
    {
      PagePosts.PrependKeepsIdsOneToN(posts, content);
      posts := PagePosts.PrependPost(posts, content);
    }
  }
}
