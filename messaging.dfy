/**
  The messaging page: a conversation list filtered by a search box, the
  selected conversation, the draft message with its send guard and the Enter
  key rule.
 */
module Messaging {
  import opened Wrappers
  import opened Lists
  import opened Text
  import opened Badges

  datatype Conversation = Conversation(
    id: int,
    name: string,
    lastMessage: string,
    timestamp: string,
    unread: nat,
    online: bool,
    isGroup: bool)

  datatype Message = Message(id: int, sender: string, message: string, timestamp: string, isMe: bool)

  /** `mockConversations` (`isGroup` absent in the source reads as false). */
  function MockConversations(): seq<Conversation>
  {
    [ Conversation(1, "Sarah Johnson", "Thanks for the meal plan update!", "10:30 AM", 2, true, false),
      Conversation(2, "Mike Chen", "Can we adjust my workout schedule?", "Yesterday", 0, false, false),
      Conversation(3, "Emily Rodriguez", "Great session today!", "Yesterday", 1, true, false),
      Conversation(4, "Summer Challenge Group", "John: Keep pushing everyone! \U{F0}\U{178}\U{2019}\U{AA}", "2 days ago", 5, false, true) ]
  }

  /** `mockMessages`: one fixed history. */
  function MockMessages(): seq<Message>
  {
    [ Message(1, "Sarah Johnson", "Hi! I have a question about the meal plan you sent", "10:15 AM", false),
      Message(2, "Me", "Of course! What would you like to know?", "10:16 AM", true),
      Message(3, "Sarah Johnson", "Can I substitute chicken with fish in the dinner recipes?", "10:17 AM", false),
      Message(4, "Me", "Absolutely! Fish is a great alternative. I recommend salmon or cod for similar protein content.", "10:18 AM", true),
      Message(5, "Sarah Johnson", "Perfect! And one more thing - the portion sizes look different from last week", "10:20 AM", false),
      Message(6, "Me", "Yes, I adjusted them based on your progress. We're increasing protein slightly to support your strength training.", "10:22 AM", true),
      Message(7, "Sarah Johnson", "Thanks for the meal plan update!", "10:30 AM", false) ]
  }

  function NameMatcher(query: string): Conversation -> bool
  {
    (c: Conversation) => MatchesSearch(c.name, query)
  }

  /** `filteredConversations`: the conversations, in order, whose lower-cased
      name contains the lower-cased query. */
  function FilteredConversations(query: string, conversations: seq<Conversation>): (r: seq<Conversation>)
    ensures Subsequence(r, conversations)
    ensures forall c :: c in r <==> c in conversations && Includes(LowerCase(c.name), LowerCase(query))
  {
    Filter(NameMatcher(query), conversations)
  }

  /** An empty search keeps every conversation, in order. */
  lemma EmptyQueryKeepsAll(conversations: seq<Conversation>)
    ensures FilteredConversations("", conversations) == conversations
  {
    forall c ensures NameMatcher("")(c) {
      EmptyQueryMatchesAll(c.name);
    }
    FilterKeepsAll(NameMatcher(""), conversations);
  }

  lemma InitialListShowsFour()
    ensures |FilteredConversations("", MockConversations())| == 4
  {
    EmptyQueryKeepsAll(MockConversations());
  }

  /** The unread badge of a conversation row: a destructive badge holding
      the count, present only for a positive count. */
  function UnreadBadge(c: Conversation): (r: Option<(Variant, nat)>)
    ensures r.Some? <==> c.unread > 0
    ensures r.Some? ==> r.value == (Destructive, c.unread)
  {
    if c.unread > 0 then Some((Destructive, c.unread)) else None
  }

  /** In the fixture, Mike Chen (id 2) is the only conversation without a badge. */
  lemma FixtureBadges()
    ensures forall i :: 0 <= i < 4 ==> (UnreadBadge(MockConversations()[i]).None? <==> MockConversations()[i].id == 2)
  {
  }

  /** The chat area's history: the same list whatever is selected. */
  function DisplayedMessages(selected: Conversation): seq<Message>
  {
    MockMessages()
  }

  /** Selecting another conversation does not change the history shown. */
  lemma HistoryIgnoresSelection(a: Conversation, b: Conversation)
    ensures DisplayedMessages(a) == DisplayedMessages(b)
  {
  }

  /** What `handleSendMessage` leaves in the draft: a draft with any
      non-white-space character is sent and cleared, a blank one stays. */
  function DraftAfterSend(draft: string): (r: string)
    ensures AllWhitespace(draft) ==> r == draft
    ensures !AllWhitespace(draft) ==> r == ""
  {
    if Trim(draft) != [] then "" else draft
  }

  /** Sending twice is the same as sending once. */
  lemma SendIdempotent(draft: string)
    ensures DraftAfterSend(DraftAfterSend(draft)) == DraftAfterSend(draft)
  {
  }

  /** The input's key handler acts (prevents the default newline and sends)
      exactly for Enter without Shift. */
  predicate SendsOnKey(key: string, shiftKey: bool)
  {
    key == "Enter" && !shiftKey
  }

  /** `MessagingPage`'s state. */
  class MessagingPage {
    var selectedConversation: Conversation
    var messageText: string
    var searchQuery: string

    constructor ()
      ensures selectedConversation == MockConversations()[0] && selectedConversation.id == 1
      ensures messageText == "" && searchQuery == ""
    {
      selectedConversation := MockConversations()[0];
      messageText := "";
      searchQuery := "";
    }

    function Visible(): seq<Conversation>
      reads this
    {
      FilteredConversations(searchQuery, MockConversations())
    }

    /** A row is highlighted when its id is the selected conversation's id. */
    predicate IsHighlighted(c: Conversation)
      reads this
    {
      selectedConversation.id == c.id
    }

    method SetMessageText(text: string)
      modifies this`messageText
      ensures messageText == text
    {
      messageText := text;
    }

    /** The search input's `onChange`; the selection is kept. */
    method SetSearchQuery(query: string)
      modifies this`searchQuery
      ensures searchQuery == query
      ensures selectedConversation == old(selectedConversation)
    {
      searchQuery := query;
    }

    /** A row click replaces the selection. */
    method SelectConversation(c: Conversation)
      modifies this`selectedConversation
      ensures selectedConversation == c
      ensures IsHighlighted(c)
    {
      selectedConversation := c;
    }

    /** `handleSendMessage`: clears the draft iff its trimmed text is non-empty. */
    method SendMessage()
      modifies this`messageText
      ensures messageText == DraftAfterSend(old(messageText))
      ensures messageText == "" <==> old(messageText) == "" || !AllWhitespace(old(messageText))
    {
      if Trim(messageText) != [] {
        messageText := "";
      }
    }

    /** The input's `onKeyPress`: returns whether the default action was
        prevented; only then is the draft sent. */
    method KeyPress(key: string, shiftKey: bool) returns (prevented: bool)
      modifies this`messageText
      ensures prevented <==> SendsOnKey(key, shiftKey)
      ensures prevented ==> messageText == DraftAfterSend(old(messageText))
      ensures !prevented ==> messageText == old(messageText)
    {
      prevented := false;
      if key == "Enter" && !shiftKey {
        prevented := true;
        SendMessage();
      }
    }
  }
}
