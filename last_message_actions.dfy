/**
 * The actions on the last messages of a chat: saving an edit of the last user
 * message and regenerating the last assistant reply. Both read the stored
 * history, compute a list from it, append records to the store and run a
 * summarization pass over the computed list.
 */
module LastMessageActions {
  import opened Wrappers
  import opened Lists
  import opened JsString
  import opened Messages
  import opened CharacterStore
  import opened Chat

  /** `messages.map((m) => m.id === target ? { ...m, parts: editText } : m)`; two missing ids are equal. */
  function Edited(messages: seq<Message>, target: Option<string>, editText: string): (r: seq<Message>)
    ensures |r| == |messages|
    ensures forall i :: 0 <= i < |messages| ==> r[i].(parts := messages[i].parts) == messages[i]
    ensures forall i :: 0 <= i < |messages| && messages[i].id == target ==> r[i].parts == editText
    ensures forall i :: 0 <= i < |messages| && messages[i].id != target ==> r[i] == messages[i]
  {
    seq(|messages|, i requires 0 <= i < |messages| =>
      if messages[i].id == target then messages[i].(parts := editText) else messages[i])
  }

  /** `(m) => m.parentUserId === target` */
  function RepliesTo(target: Option<string>): Message -> bool {
    (m: Message) => m.parentUserId == target
  }

  /** `updated.filter((m) => m.parentUserId === target)`: the replies to the edited message. */
  function Dependents(updated: seq<Message>, target: Option<string>): (r: seq<Message>)
    ensures forall i :: 0 <= i < |r| ==> r[i] in updated && r[i].parentUserId == target
    ensures forall i :: 0 <= i < |updated| && updated[i].parentUserId == target ==> updated[i] in r
  {
    Filter(updated, RepliesTo(target))
  }

  /**
   * Everything an edit appends to the history: the edited list, then a removed
   * copy of each dependent reply, each of which is removed and replies to the
   * target.
   */
  function EditAppends(messages: seq<Message>, target: Option<string>, editText: string): (r: seq<Message>)
    ensures |r| >= |messages| && r[..|messages|] == Edited(messages, target, editText)
    ensures forall k :: |messages| <= k < |r| ==>
              r[k].removed && r[k].parentUserId == target
              && exists i :: 0 <= i < |messages| && messages[i].parentUserId == target
                             && r[k] == Tombstone(Edited(messages, target, editText)[i])
  {
    var updated := Edited(messages, target, editText);
    TombstonesOfReplies(messages, updated, target);
    updated + Tombstones(Dependents(updated, target))
  }

  /**
   * Appending the removed copies of the replies in the edited list appends only
   * removed copies of edited records that reply to the target.
   */
  lemma TombstonesOfReplies(messages: seq<Message>, updated: seq<Message>, target: Option<string>)
    requires |updated| == |messages|
    requires forall j :: 0 <= j < |messages| ==> updated[j].parentUserId == messages[j].parentUserId
    ensures var r := updated + Tombstones(Dependents(updated, target));
            forall k :: |messages| <= k < |r| ==>
              r[k].removed && r[k].parentUserId == target
              && exists i :: 0 <= i < |messages| && messages[i].parentUserId == target
                             && r[k] == Tombstone(updated[i])
  {
    var d := Dependents(updated, target);
    var r := updated + Tombstones(d);
    forall k | |messages| <= k < |r|
      ensures r[k].removed && r[k].parentUserId == target
              && exists i :: 0 <= i < |messages| && messages[i].parentUserId == target
                             && r[k] == Tombstone(updated[i])
    {
      assert r[k] == Tombstones(d)[k - |messages|] == Tombstone(d[k - |messages|]);
      var i := ReplyIndex(messages, updated, target, d[k - |messages|]);
      assert r[k] == Tombstone(updated[i]);
    }
  }

  /** A reply found in the edited list sits at an index whose history record replies to the target. */
  lemma ReplyIndex(messages: seq<Message>, updated: seq<Message>, target: Option<string>, x: Message) returns (i: nat)
    requires |updated| == |messages|
    requires forall j :: 0 <= j < |messages| ==> updated[j].parentUserId == messages[j].parentUserId
    requires x in updated && x.parentUserId == target
    ensures i < |messages| && messages[i].parentUserId == target && updated[i] == x
  {
    i :| 0 <= i < |updated| && updated[i] == x;
  }

  /**
   * An edit appends, after the whole edited list, a removed copy of every
   * record whose `parentUserId` equals the target, and only of those.
   */
  lemma EditTombstonesExactlyTheReplies(messages: seq<Message>, target: Option<string>, editText: string)
    ensures var updated := Edited(messages, target, editText);
            var appended := EditAppends(messages, target, editText);
            appended[..|messages|] == updated
            && (forall i :: 0 <= i < |messages| && messages[i].parentUserId == target ==>
                  Tombstone(updated[i]) in appended[|messages|..])
            && (forall m :: m in appended[|messages|..] ==>
                  exists i :: 0 <= i < |messages| && messages[i].parentUserId == target && m == Tombstone(updated[i]))
  {
  }

  /**
   * The removed copies an edit appends, one per reply and in history order:
   * one more record in the history adds a removed copy of its edited form at
   * the end exactly when it replies to the target. With the empty history
   * appending nothing, this fixes how many copies there are and their order,
   * duplicates included.
   */
  lemma EditTailAppend(messages: seq<Message>, m: Message, target: Option<string>, editText: string)
    ensures EditAppends(messages + [m], target, editText)[|messages| + 1..]
            == EditAppends(messages, target, editText)[|messages|..]
               + (if m.parentUserId == target then [Tombstone(Edited([m], target, editText)[0])] else [])
  {
    var u, e := Edited(messages, target, editText), Edited([m], target, editText);
    EditedAppend(messages, m, target, editText);
    FilterConcat(u, e, RepliesTo(target));
    var d, de := Dependents(u, target), Dependents(e, target);
    assert de == if m.parentUserId == target then [e[0]] else [] by {
      assert e == [e[0]] && e[0].parentUserId == m.parentUserId;
      assert e[1..] == [];
    }
    TombstonesConcat(d, de);
  }

  /** Editing a history with one more record edits the history and then that record. */
  lemma EditedAppend(messages: seq<Message>, m: Message, target: Option<string>, editText: string)
    ensures Edited(messages + [m], target, editText) == Edited(messages, target, editText) + Edited([m], target, editText)
  {
  }

  /** An edit of the empty history appends nothing. */
  lemma EditAppendsNothingToEmpty(target: Option<string>, editText: string)
    ensures EditAppends([], target, editText) == []
  {
  }

  /**
   * With no id on the edited message, every record without an id gets the new
   * text and every record without a `parentUserId` gets a removed copy.
   */
  lemma EditWithoutId(messages: seq<Message>, editText: string)
    ensures var updated := Edited(messages, None, editText);
            var appended := EditAppends(messages, None, editText);
            (forall i :: 0 <= i < |messages| && messages[i].id.None? ==> updated[i].parts == editText)
            && (forall i :: 0 <= i < |messages| && messages[i].parentUserId.None? ==>
                  Tombstone(updated[i]) in appended[|messages|..])
  {
  }

  predicate IsLiveAssistant(m: Message) {
    m.role == "assistant" && !m.removed
  }

  predicate IsLiveTurn(m: Message) {
    !m.removed && (m.role == "user" || m.role == "assistant")
  }

  predicate IsUser(m: Message) {
    m.role == "user"
  }

  predicate IsLiveUser(m: Message) {
    !m.removed && m.role == "user"
  }

  /** `messages.slice().reverse().find((m) => m.role === "assistant" && !m.removed)` */
  function LastAssistant(messages: seq<Message>): (r: Option<Message>)
    ensures r.None? <==> forall i :: 0 <= i < |messages| ==> !IsLiveAssistant(messages[i])
    ensures r.Some? ==> r.value in messages && IsLiveAssistant(r.value)
  {
    assert forall i :: 0 <= i < |messages| ==> messages[i] == Reverse(messages)[|messages| - 1 - i];
    Find(Reverse(messages), IsLiveAssistant)
  }

  /** `messages.filter((m) => !m.removed && (m.role === "user" || m.role === "assistant"))` */
  function Context(messages: seq<Message>): (r: seq<Message>)
    ensures forall i :: 0 <= i < |r| ==> r[i] in messages && IsLiveTurn(r[i])
    ensures forall i :: 0 <= i < |messages| && IsLiveTurn(messages[i]) ==> messages[i] in r
  {
    Filter(messages, IsLiveTurn)
  }

  /** `context.slice().reverse().find((m) => m.role === "user")` */
  function LastUser(context: seq<Message>): (r: Option<Message>)
    ensures r.None? <==> forall i :: 0 <= i < |context| ==> !IsUser(context[i])
    ensures r.Some? ==> r.value in context && IsUser(r.value)
  {
    assert forall i :: 0 <= i < |context| ==> context[i] == Reverse(context)[|context| - 1 - i];
    Find(Reverse(context), IsUser)
  }

  /** The reply regenerate picks is the last assistant record that is not removed; there is none exactly when no such record exists. */
  lemma LastAssistantIsLast(messages: seq<Message>)
    ensures LastAssistant(messages).None? <==> forall i :: 0 <= i < |messages| ==> !IsLiveAssistant(messages[i])
    ensures LastAssistant(messages).Some? ==>
              exists i :: 0 <= i < |messages| && messages[i] == LastAssistant(messages).value
                          && IsLiveAssistant(messages[i])
                          && forall j :: i < j < |messages| ==> !IsLiveAssistant(messages[j])
  {
    FindReversedIsLast(messages, IsLiveAssistant);
    var last := LastIndex(messages, IsLiveAssistant);
    if last.Some? {
      assert messages[last.value] == LastAssistant(messages).value;
    }
  }

  /** The context is read before the tombstone is appended, so it still holds the reply being regenerated. */
  lemma ContextHoldsRegeneratedReply(messages: seq<Message>)
    requires LastAssistant(messages).Some?
    ensures LastAssistant(messages).value in Context(messages)
  {
  }

  /** The text regenerate re-sends comes from the last user record of the history that is not removed. */
  lemma ResentIsLastLiveUser(messages: seq<Message>)
    ensures LastUser(Context(messages)) == Find(Reverse(messages), IsLiveUser)
  {
    FindReversedAfterFilter(messages, IsLiveTurn, IsUser, IsLiveUser);
  }

  /**
   * The context holds only live user and assistant records, so a pass over it
   * finds no tier due: it appends nothing and sends no summary request.
   */
  lemma RegeneratePassIsEmpty(messages: seq<Message>, cid: CharacterId, summarize: Summarizer)
    ensures Pass(Context(messages), cid, summarize) == Step([], [], false)
  {
    var ctx := Context(messages);
    FilterNone(ctx, IsChunkSummary);
    FilterNone(ctx, IsChapterSummary);
    ChunkTierNeverDue(ctx, cid);
  }

  /**
   * `handleEditSave`: append every record of the edited list, then a removed
   * copy of each reply to the edited message, send the trimmed text on an open
   * socket, and run a pass over the edited list.
   */
  method HandleEditSave(session: ChatSession, message: Message, editText: string, summarize: Summarizer)
    returns (requests: seq<Request>)
    requires session.store.Valid()
    modifies session`summarizing, session`sent, session.store
    ensures session.store.Valid()
    ensures session.summarizing == old(session.summarizing)
    ensures var updated := Edited(old(session.store.GetMessages(session.characterId)), message.id, editText);
            var pass := if old(session.summarizing) then Step([], [], false) else Pass(updated, session.characterId, summarize);
            requests == pass.requests
            && session.store.chatHistories == WithMessages(old(session.store.chatHistories), session.characterId,
                 EditAppends(old(session.store.GetMessages(session.characterId)), message.id, editText) + pass.appended)
    ensures session.sent == old(session.sent) + if session.socketOpen then [Trim(editText)] else []
  {
    var store, cid := session.store, session.characterId;
    var messages := store.GetMessages(cid);
    var updatedMessages := Edited(messages, message.id, editText);
    AddEach(store, cid, updatedMessages);
    var dependents := Dependents(updatedMessages, message.id);
    AddEach(store, cid, Tombstones(dependents));
    WithMessagesTwice(old(store.chatHistories), cid, updatedMessages, Tombstones(dependents));
    if session.socketOpen {
      session.Send(Trim(editText));
    }
    requests := session.TriggerSummaryIfNeeded(updatedMessages, summarize);
    ghost var pass := if old(session.summarizing) then [] else Pass(updatedMessages, cid, summarize).appended;
    WithMessagesTwice(old(store.chatHistories), cid, EditAppends(messages, message.id, editText), pass);
    assert EditAppends(messages, message.id, editText) + [] == EditAppends(messages, message.id, editText);
  }

  /**
   * `handleRegenerate`: nothing when there is no live assistant reply;
   * otherwise append a removed copy of the last one, re-send the trimmed text
   * of the last user record of the context on an open socket, and run a pass
   * over the context.
   */
  method HandleRegenerate(session: ChatSession, summarize: Summarizer) returns (requests: seq<Request>)
    requires session.store.Valid()
    modifies session`summarizing, session`sent, session.store
    ensures session.store.Valid()
    ensures session.summarizing == old(session.summarizing)
    ensures var messages := old(session.store.GetMessages(session.characterId));
            LastAssistant(messages).None? ==>
              requests == [] && session.store.chatHistories == old(session.store.chatHistories)
              && session.sent == old(session.sent)
    ensures var messages := old(session.store.GetMessages(session.characterId));
            var context := Context(messages);
            LastAssistant(messages).Some? ==>
              requests == []
              && session.store.chatHistories == WithMessages(old(session.store.chatHistories), session.characterId,
                   [Tombstone(LastAssistant(messages).value)])
              && session.sent == old(session.sent)
                   + if session.socketOpen && LastUser(context).Some? then [Trim(LastUser(context).value.parts)] else []
  {
    var store, cid := session.store, session.characterId;
    var messages := store.GetMessages(cid);
    var lastAssistant := LastAssistant(messages);
    if lastAssistant.None? {
      return [];
    }
    store.AddMessage(cid, Tombstone(lastAssistant.value));
    assert session.summarizing == old(session.summarizing) && session.sent == old(session.sent);
    var context := Context(messages);
    var lastUserMsg := LastUser(context);
    if session.socketOpen && lastUserMsg.Some? {
      session.Send(Trim(lastUserMsg.value.parts));
    }
    ghost var sent := session.sent;
    assert sent == old(session.sent) + if session.socketOpen && lastUserMsg.Some? then [Trim(lastUserMsg.value.parts)] else [];
    assert session.summarizing == old(session.summarizing);
    requests := session.TriggerSummaryIfNeeded(context, summarize);
    assert session.sent == sent;
    RegeneratePassIsEmpty(messages, cid, summarize);
  }
}
