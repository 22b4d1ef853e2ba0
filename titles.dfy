/** Title derivation when a chat is saved (main.py:136-144). */
module Titles {
  import opened Wrappers
  import opened Schema

  /** Length beyond which a derived title is cut. */
  const TitleLimit := 50

  /** Marker appended to a cut title. */
  const Ellipsis := "..."

  /** Title given to a conversation without any user message. */
  const Placeholder := "Untitled Chat"

  /** The user messages, in conversation order (main.py:139). */
  function UserMessages(messages: seq<Message>): (users: seq<Message>)
    decreases |messages|
    ensures forall u :: u in users ==> u in messages && u.role == "user"
    ensures forall m :: m in messages && m.role == "user" ==> m in users
  {
    if messages == [] then []
    else
      var rest := UserMessages(messages[1..]);
      if messages[0].role == "user" then [messages[0]] + rest else rest
  }

  /** Filtering two stretches of a conversation one after the other gives the
      two filtered stretches one after the other: the user messages keep
      their conversation order and their repetitions. */
  lemma {:induction false} UserMessagesAppend(a: seq<Message>, b: seq<Message>)
    ensures UserMessages(a + b) == UserMessages(a) + UserMessages(b)
    decreases |a|
  {
    if a == [] {
      assert a + b == b;
    } else {
      assert (a + b)[1..] == a[1..] + b;
      UserMessagesAppend(a[1..], b);
    }
  }

  /** The content cut to `TitleLimit` characters, with the ellipsis when it
      was longer (main.py:142). Python's `len` and slicing count code points,
      as Dafny's strings do. */
  function Abbreviate(s: string): (t: string)
    ensures |t| <= TitleLimit + |Ellipsis|
    ensures |s| <= TitleLimit ==> t == s
    ensures |s| > TitleLimit ==>
      |t| == TitleLimit + |Ellipsis| && t[..TitleLimit] == s[..TitleLimit] && t[TitleLimit..] == Ellipsis
  {
    if |s| > TitleLimit then s[..TitleLimit] + Ellipsis else s
  }

  /** The title stored with a saved chat. A truthy supplied title is kept; a
      falsy one (missing or empty) is replaced only when there are messages,
      by the abbreviated first user message, or by the placeholder when no
      message comes from the user. With no messages the supplied value stays,
      so the stored title may be missing or empty. */
  function DeriveTitle(supplied: Option<string>, messages: seq<Message>): (title: Option<string>)
    ensures IsTruthy(supplied) ==> title == supplied
    ensures !IsTruthy(supplied) && messages == [] ==> title == supplied
    ensures !IsTruthy(supplied) && messages != [] ==> title.Some? && |title.value| <= TitleLimit + |Ellipsis|
  {
    if !IsTruthy(supplied) && messages != [] then
      var users := UserMessages(messages);
      if users != [] then Some(Abbreviate(users[0].content)) else Some(Placeholder)
    else supplied
  }

  /** When the title is derived from a user message, it comes from the FIRST
      one: the message at the earliest position whose role is "user". */
  lemma {:induction false} DerivedFromFirstUserMessage(supplied: Option<string>, messages: seq<Message>, i: nat)
    requires !IsTruthy(supplied)
    requires i < |messages| && messages[i].role == "user"
    requires forall j :: 0 <= j < i ==> messages[j].role != "user"
    ensures DeriveTitle(supplied, messages) == Some(Abbreviate(messages[i].content))
  {
    FirstUserAt(messages, i);
  }

  lemma {:induction false} FirstUserAt(messages: seq<Message>, i: nat)
    requires i < |messages| && messages[i].role == "user"
    requires forall j :: 0 <= j < i ==> messages[j].role != "user"
    ensures UserMessages(messages) != [] && UserMessages(messages)[0] == messages[i]
    decreases i
  {
    if i > 0 {
      FirstUserAt(messages[1..], i - 1);
    }
  }

  /** With no user message among non-empty messages, the title is the placeholder. */
  lemma NoUserMessageGivesPlaceholder(supplied: Option<string>, messages: seq<Message>)
    requires !IsTruthy(supplied) && messages != []
    requires forall m :: m in messages ==> m.role != "user"
    ensures DeriveTitle(supplied, messages) == Some(Placeholder)
  {
  }

  /** A first user message of exactly 50 characters is kept whole, with no ellipsis. */
  lemma FiftyCharactersKeptWhole()
    ensures DeriveTitle(None, [Message("user", "Explain recursion in under fifty characters please")])
      == Some("Explain recursion in under fifty characters please")
  {
    var m := Message("user", "Explain recursion in under fifty characters please");
    FirstUserAt([m], 0);
  }
}
