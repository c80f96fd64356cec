/**
  The remembered chats: for every robot, identified by its serial number
  (ESN), the last exchanges between the user and the assistant.  A new
  exchange is appended to the robot's chat; a chat that already holds 16
  messages first drops its oldest exchange.  A chat for a robot not seen
  before is appended to the store, and only then is the store saved.
*/
module ChatHistory {
  import opened Messages
  import opened Wrappers

  /** The largest number of messages a remembered chat holds. */
  const MaxMessages: nat := 16

  datatype RememberedChat = RememberedChat(esn: string, chats: seq<ChatMessage>)

  /** Position of the first chat of robot `esn`. */
  function FindChat(chats: seq<RememberedChat>, esn: string): (r: Option<nat>)
    ensures r.None? <==> forall k :: 0 <= k < |chats| ==> chats[k].esn != esn
    ensures r.Some? ==> r.value < |chats| && chats[r.value].esn == esn
    ensures r.Some? ==> forall k :: 0 <= k < r.value ==> chats[k].esn != esn
  {
    if chats == [] then None
    else if chats[0].esn == esn then Some(0)
    else match FindChat(chats[1..], esn)
      case None => None
      case Some(k) => Some(k + 1)
  }

  /** The first position holding the robot is the one found. */
  lemma FindChatAt(chats: seq<RememberedChat>, esn: string, k: nat)
    requires k < |chats| && chats[k].esn == esn
    requires forall j :: 0 <= j < k ==> chats[j].esn != esn
    ensures FindChat(chats, esn) == Some(k)
  {
  }

  /** The chat remembered for `esn`, or an empty chat for that robot. */
  function ChatOf(chats: seq<RememberedChat>, esn: string): (r: RememberedChat)
    ensures r.esn == esn
  {
    match FindChat(chats, esn)
    case Some(k) => chats[k]
    case None => RememberedChat(esn, [])
  }

  /** The store after placing `chat`: the first chat of the same robot is replaced, or the chat
      is appended when the robot has none. */
  function Placed(chats: seq<RememberedChat>, chat: RememberedChat): seq<RememberedChat>
  {
    match FindChat(chats, chat.esn)
    case Some(k) => chats[k := chat]
    case None => chats + [chat]
  }

  /** The robot's chat after one more exchange, dropping the oldest exchange of a full chat. */
  function Remembered(current: RememberedChat, user: string, ai: string, esn: string): RememberedChat
  {
    var kept := if |current.chats| == MaxMessages then current.chats[2..] else current.chats;
    RememberedChat(esn, kept + [UserMessage(user), AssistantMessage(ai)])
  }

  /** Every chat holds whole exchanges and at most `MaxMessages` messages. */
  predicate Bounded(chats: seq<RememberedChat>)
  {
    forall k :: 0 <= k < |chats| ==> |chats[k].chats| % 2 == 0 && |chats[k].chats| <= MaxMessages
  }

  /** No robot has two chats. */
  predicate DistinctRobots(chats: seq<RememberedChat>)
  {
    forall i, j :: 0 <= i < j < |chats| ==> chats[i].esn != chats[j].esn
  }

  // ---------------------------------------------------------------------
  // Properties of the specification

  /** After placing a chat, looking its robot up yields that chat. */
  lemma PlacedThenFound(chats: seq<RememberedChat>, chat: RememberedChat)
    ensures ChatOf(Placed(chats, chat), chat.esn) == chat
  {
    var placed := Placed(chats, chat);
    match FindChat(chats, chat.esn)
    case Some(k) =>
      FindChatAt(placed, chat.esn, k);
    case None =>
      FindChatAt(placed, chat.esn, |chats|);
  }

  /** Placing a chat leaves every other robot's chat as it was. */
  lemma PlacedKeepsOthers(chats: seq<RememberedChat>, chat: RememberedChat, esn: string)
    requires esn != chat.esn
    ensures ChatOf(Placed(chats, chat), esn) == ChatOf(chats, esn)
  {
    var placed := Placed(chats, chat);
    assert forall j :: 0 <= j < |chats| && chats[j].esn == esn ==> placed[j] == chats[j];
    assert forall j :: 0 <= j < |placed| && placed[j].esn == esn ==> j < |chats| && placed[j] == chats[j];
    match FindChat(chats, esn)
    case Some(k) =>
      FindChatAt(placed, esn, k);
    case None =>
      assert FindChat(placed, esn).None?;
  }

  /** Placing a chat adds a robot only when it was not there, and never duplicates one. */
  lemma PlacedKeepsDistinct(chats: seq<RememberedChat>, chat: RememberedChat)
    requires DistinctRobots(chats)
    ensures DistinctRobots(Placed(chats, chat))
    ensures |Placed(chats, chat)| == |chats| + (if FindChat(chats, chat.esn).None? then 1 else 0)
  {
  }

  /** A remembered exchange ends the chat, user first, and a full chat first loses exactly its
      oldest exchange while the other fourteen messages keep their order. */
  lemma RememberedShape(current: RememberedChat, user: string, ai: string, esn: string)
    ensures var r := Remembered(current, user, ai, esn);
      && r.esn == esn
      && |r.chats| >= 2
      && r.chats[|r.chats| - 2..] == [UserMessage(user), AssistantMessage(ai)]
      && (|current.chats| == MaxMessages ==> r.chats[..|r.chats| - 2] == current.chats[2..])
      && (|current.chats| != MaxMessages ==> r.chats[..|r.chats| - 2] == current.chats)
  {
  }

  /** Remembering an exchange keeps every chat bounded and whole. */
  lemma RememberKeepsBounded(chats: seq<RememberedChat>, user: string, ai: string, esn: string)
    requires Bounded(chats)
    ensures Bounded(Placed(chats, Remembered(ChatOf(chats, esn), user, ai, esn)))
  {
  }

  /** Placing a whole chat of at most `MaxMessages` messages keeps every chat bounded and whole. */
  lemma PlacedKeepsBounded(chats: seq<RememberedChat>, chat: RememberedChat)
    requires Bounded(chats)
    requires |chat.chats| % 2 == 0 && |chat.chats| <= MaxMessages
    ensures Bounded(Placed(chats, chat))
  {
  }

  // ---------------------------------------------------------------------
  // The store

  class ChatStore {
    /** The remembered chats, in the order robots were first seen. */
    var chats: seq<RememberedChat>
    /** How many times the store was written out. */
    var saves: nat

    predicate Valid()
      reads this
    {
      Bounded(chats) && DistinctRobots(chats)
    }

    constructor ()
      ensures chats == [] && saves == 0
      ensures Valid()
    {
      chats := [];
      saves := 0;
    }

    /** `getChat`: the first chat of the robot, or an empty one. */
    method GetChat(esn: string) returns (chat: RememberedChat)
      ensures chat == ChatOf(chats, esn)
    {
      var i := 0;
      while i < |chats|
        invariant 0 <= i <= |chats|
        invariant forall k :: 0 <= k < i ==> chats[k].esn != esn
      {
        if chats[i].esn == esn {
          return chats[i];
        }
        i := i + 1;
      }
      return RememberedChat(esn, []);
    }

    /** `placeChat`: replaces the robot's chat in place, or appends it and saves the store. */
    method PlaceChat(chat: RememberedChat)
      modifies this
      ensures chats == Placed(old(chats), chat)
      ensures saves == old(saves) + (if FindChat(old(chats), chat.esn).None? then 1 else 0)
      ensures old(Valid()) && |chat.chats| % 2 == 0 && |chat.chats| <= MaxMessages ==> Valid()
    {
      if Valid() && |chat.chats| % 2 == 0 && |chat.chats| <= MaxMessages {
        PlacedKeepsDistinct(chats, chat);
        PlacedKeepsBounded(chats, chat);
      }
      var i := 0;
      while i < |chats|
        invariant 0 <= i <= |chats|
        invariant chats == old(chats) && saves == old(saves)
        invariant forall k :: 0 <= k < i ==> chats[k].esn != chat.esn
      {
        if chats[i].esn == chat.esn {
          chats := chats[i := chat];
          return;
        }
        i := i + 1;
      }
      chats := chats + [chat];
      saves := saves + 1;
    }

    /** The loop that drops the oldest exchange of a full chat. */
    static method DropOldestExchange(msgs: seq<ChatMessage>) returns (kept: seq<ChatMessage>)
      requires |msgs| >= 2
      ensures kept == msgs[2..]
    {
      kept := [];
      for i := 0 to |msgs|
        invariant kept == if i <= 2 then [] else msgs[2..i]
      {
        if i < 2 {
          continue;
        }
        kept := kept + [msgs[i]];
      }
    }

    /** `remember`: appends the exchange to the robot's chat and places the chat in the store. */
    method Remember(user: string, ai: string, esn: string)
      requires Valid()
      modifies this
      ensures chats == Placed(old(chats), Remembered(ChatOf(old(chats), esn), user, ai, esn))
      ensures saves == old(saves) + (if FindChat(old(chats), esn).None? then 1 else 0)
      ensures Valid()
      ensures ChatOf(chats, esn) == Remembered(ChatOf(old(chats), esn), user, ai, esn)
    {
      var currentChat := GetChat(esn);
      var msgs := currentChat.chats;
      if |msgs| == MaxMessages {
        msgs := DropOldestExchange(msgs);
      }
      var updated := RememberedChat(esn, msgs + [UserMessage(user), AssistantMessage(ai)]);
      RememberKeepsBounded(chats, user, ai, esn);
      PlacedKeepsDistinct(chats, updated);
      PlacedThenFound(chats, updated);
      PlaceChat(updated);
    }
  }
}
