/**
 * The chat-history part of the character store: a map from character id to
 * that character's list of messages, written through to persistent storage
 * on every change.
 */
module CharacterStore {
  import opened Wrappers
  import opened Messages

  type CharacterId = string
  type Histories = map<CharacterId, seq<Message>>

  /** `chatHistories[characterId] || []`: a character that was never written has an empty history. */
  function History(h: Histories, id: CharacterId): (r: seq<Message>)
    ensures id !in h ==> r == []
    ensures id in h ==> r == h[id]
  {
    if id in h then h[id] else []
  }

  /**
   * The histories after appending ms to the history of id, one message at a
   * time; appending nothing leaves the map as it is.
   */
  function WithMessages(h: Histories, id: CharacterId, ms: seq<Message>): (r: Histories)
    ensures History(r, id) == History(h, id) + ms
    ensures forall other :: other != id ==> History(r, other) == History(h, other)
    ensures ms != [] ==> r.Keys == h.Keys + {id}
    ensures ms == [] ==> r == h
  {
    if ms == [] then h else h[id := History(h, id) + ms]
  }

  /** The histories after the history of id is replaced by the empty list. */
  function Cleared(h: Histories, id: CharacterId): (r: Histories)
    ensures id in r && History(r, id) == []
    ensures forall other :: other != id ==> History(r, other) == History(h, other)
  {
    h[id := []]
  }

  /** Every history of before is still there in after, as a prefix. */
  ghost predicate AppendOnly(before: Histories, after: Histories) {
    forall id :: id in before ==> id in after && before[id] <= after[id]
  }

  /** Appending keeps every earlier entry of every history, in place. */
  lemma AppendingIsAppendOnly(h: Histories, id: CharacterId, ms: seq<Message>)
    ensures AppendOnly(h, WithMessages(h, id, ms))
  {
  }

  /** Two appends in a row are one append of both lists. */
  lemma WithMessagesTwice(h: Histories, id: CharacterId, a: seq<Message>, b: seq<Message>)
    ensures WithMessages(WithMessages(h, id, a), id, b) == WithMessages(h, id, a + b)
  {
    if a == [] { assert a + b == b; }
    else if b == [] { assert a + b == a; }
    else { assert History(h, id) + a + b == History(h, id) + (a + b); }
  }

  class Store {
    var chatHistories: Histories
    /** What the last write left in persistent storage, as a map. */
    ghost var persisted: Histories

    /** Memory and persistent storage agree. */
    ghost predicate Valid()
      reads this
    {
      persisted == chatHistories
    }

    /** Loads the saved histories, or starts with none when nothing was saved. */
    constructor (saved: Option<Histories>)
      ensures Valid()
      ensures chatHistories == if saved.Some? then saved.value else map[]
    {
      chatHistories := if saved.Some? then saved.value else map[];
      persisted := if saved.Some? then saved.value else map[];
    }

    /** `getMessages(characterId)` */
    function GetMessages(id: CharacterId): (r: seq<Message>)
      reads this
      ensures id !in chatHistories ==> r == []
      ensures id in chatHistories ==> r == chatHistories[id]
    {
      History(chatHistories, id)
    }

    /** `addMessage(characterId, message)`: append to that history and write through. */
    method AddMessage(id: CharacterId, message: Message)
      modifies this
      ensures Valid()
      ensures chatHistories == WithMessages(old(chatHistories), id, [message])
      ensures GetMessages(id) == old(GetMessages(id)) + [message]
      ensures AppendOnly(old(chatHistories), chatHistories)
    {
      var updatedHistory := if id in chatHistories then chatHistories[id] + [message] else [message];
      assert updatedHistory == History(chatHistories, id) + [message];
      var newHistories := chatHistories[id := updatedHistory];
      persisted := newHistories;
      chatHistories := newHistories;
      AppendingIsAppendOnly(old(chatHistories), id, [message]);
    }

    /** `clearChat(characterId)`: empty that history and write through. */
    method ClearChat(id: CharacterId)
      modifies this
      ensures Valid()
      ensures chatHistories == Cleared(old(chatHistories), id)
      ensures GetMessages(id) == []
    {
      var newHistories := chatHistories[id := []];
      persisted := newHistories;
      chatHistories := newHistories;
    }
  }

  /** `ms.forEach((m) => addMessage(characterId, m))` */
  method AddEach(store: Store, id: CharacterId, ms: seq<Message>)
    requires store.Valid()
    modifies store
    ensures store.Valid()
    ensures store.chatHistories == WithMessages(old(store.chatHistories), id, ms)
  {
    var i := 0;
    while i < |ms|
      invariant 0 <= i <= |ms|
      invariant store.Valid()
      invariant store.chatHistories == WithMessages(old(store.chatHistories), id, ms[..i])
    {
      store.AddMessage(id, ms[i]);
      WithMessagesTwice(old(store.chatHistories), id, ms[..i], [ms[i]]);
      assert ms[..i + 1] == ms[..i] + [ms[i]];
      i := i + 1;
    }
    assert ms[..i] == ms;
  }
}
