/**
 * The message record kept in a character's chat history. Every field the
 * screens read or write is here; a JavaScript property that may be missing
 * is an Option, and `removed` is false when the property is missing.
 */
module Messages {
  import opened Wrappers

  /** A summary's `index`: a whole number, or NaN when it was computed from a missing index. */
  datatype Index = At(n: int) | NaN

  datatype Message = Message(
    id: Option<string>,
    role: string,
    summaryType: Option<string>,
    index: Option<Index>,
    parts: string,
    parentUserId: Option<string>,
    removed: bool)

  /** A record with only `role` and `parts` set, as the chat screen builds them. */
  function Turn(role: string, parts: string): Message {
    Message(None, role, None, None, parts, None, false)
  }

  /** `{ ...m, removed: true }`: a copy of m that differs from it in `removed` alone. */
  function Tombstone(m: Message): (r: Message)
    ensures r.removed
    ensures r.(removed := m.removed) == m
  {
    m.(removed := true)
  }

  /** A tombstone copy of each record of ms, in the same order. */
  function Tombstones(ms: seq<Message>): (r: seq<Message>)
    ensures |r| == |ms|
    ensures forall i :: 0 <= i < |ms| ==> r[i].removed && r[i].(removed := ms[i].removed) == ms[i]
  {
    seq(|ms|, i requires 0 <= i < |ms| => Tombstone(ms[i]))
  }

  /** Tombstoning a concatenation tombstones each part. */
  lemma TombstonesConcat(a: seq<Message>, b: seq<Message>)
    ensures Tombstones(a + b) == Tombstones(a) + Tombstones(b)
  {
  }
}
