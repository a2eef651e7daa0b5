/**
 * The chat screen's conversation memory: the three-tier summarization pass
 * (chunk, chapter, global), the handling of an inbound socket message and of
 * the user's send. The summarization service is an oracle from request to
 * reply; the socket is an `open` flag and the list of texts sent on it.
 */
module Chat {
  import opened Wrappers
  import opened Lists
  import opened JsString
  import opened Messages
  import opened CharacterStore

  const ChunkSize := 7
  const ChunksPerChapter := 10
  const ChaptersPerGlobal := 10
  const NoSummary := "No summary."

  predicate IsRaw(m: Message) {
    m.role == "user" || m.role == "assistant"
  }

  predicate IsChunkSummary(m: Message) {
    m.role == "summary" && m.summaryType == Some("chunk")
  }

  predicate IsChapterSummary(m: Message) {
    m.role == "summary" && m.summaryType == Some("chapter")
  }

  /** The two summary services: the chunk tier posts to a local one, the upper tiers to the hosted one. */
  datatype Endpoint = LocalService | HostedService

  /** One POST to a summary service: its endpoint and its JSON body. */
  datatype Request = Request(endpoint: Endpoint, history: seq<Message>, characterId: CharacterId)

  /**
   * What a summary call comes to: an ok response whose body may carry a
   * `summary` string, a response that is not ok, or an exception (from
   * `fetch`, from `res.json()` or from a `summary` that is not a string).
   */
  datatype Reply = Ok(summary: Option<string>) | NotOk | Throw

  /** The three tiers of a pass, in the order the pass runs them. */
  datatype Level = ChunkLevel | ChapterLevel | GlobalLevel

  /** The `summaryType` a tier writes into its summary record. */
  function SummaryType(level: Level): string {
    match level
    case ChunkLevel => "chunk"
    case ChapterLevel => "chapter"
    case GlobalLevel => "global"
  }

  /**
   * The summary service as an oracle: the reply to the call a tier makes with
   * a request. Each tier's call is a separate `fetch`, so the oracle is told
   * which tier is calling; the chapter and global calls of one pass can then
   * be answered differently even when their bodies coincide.
   */
  type Summarizer = (Level, Request) -> Reply

  /** A tier that is due: the request it sends, the summary it would write and the records it would tombstone. */
  datatype Tier = Tier(level: Level, request: Request, index: Option<Index>, consumed: seq<Message>)

  /** What one or more tiers did: records appended, requests sent, and whether an exception ended the pass. */
  datatype Step = Step(appended: seq<Message>, requests: seq<Request>, threw: bool)

  /** `{ role: "summary", parts: c.parts }`, the shape sent for each rolled-up summary. */
  function SummaryTurns(cs: seq<Message>): (r: seq<Message>)
    ensures |r| == |cs|
    ensures forall i :: 0 <= i < |cs| ==> r[i] == Turn("summary", cs[i].parts)
  {
    seq(|cs|, i requires 0 <= i < |cs| => Turn("summary", cs[i].parts))
  }

  /** `rawMessages.slice(lastChunkStart)`: the raw messages after the last multiple of ChunkSize. */
  function ChunkCandidate(all: seq<Message>): seq<Message> {
    var raw := Filter(all, IsRaw);
    raw[(|raw| / ChunkSize) * ChunkSize..]
  }

  /** The candidate chunk holds |raw| mod ChunkSize messages, so it never holds ChunkSize of them. */
  lemma ChunkCandidateLength(all: seq<Message>)
    ensures |ChunkCandidate(all)| == |Filter(all, IsRaw)| % ChunkSize
    ensures |ChunkCandidate(all)| < ChunkSize
  {
  }

  /**
   * The chunk tier, due when the candidate chunk holds exactly ChunkSize raw
   * messages: it sends those messages whole to the local service, indexes its
   * summary by the number of complete chunks, and tombstones nothing.
   */
  function ChunkTier(all: seq<Message>, cid: CharacterId): (r: Option<Tier>)
    ensures r.Some? <==> |ChunkCandidate(all)| == ChunkSize
    ensures r.Some? ==>
              r.value.level == ChunkLevel && r.value.request == Request(LocalService, ChunkCandidate(all), cid)
              && r.value.index == Some(At(|Filter(all, IsRaw)| / ChunkSize)) && r.value.consumed == []
  {
    var raw := Filter(all, IsRaw);
    var lastChunk := ChunkCandidate(all);
    var index := At(|raw| / ChunkSize);
    if |lastChunk| == ChunkSize then Some(Tier(ChunkLevel, Request(LocalService, lastChunk, cid), Some(index), []))
    else None
  }

  /** As written, the chunk tier is never due, whatever the snapshot. */
  lemma ChunkTierNeverDue(all: seq<Message>, cid: CharacterId)
    ensures ChunkTier(all, cid) == None
  {
  }

  /** `Math.floor(index / CHUNKS_PER_CHAPTER)`; a missing or NaN index gives NaN. */
  function ChapterIndex(index: Option<Index>): (r: Index)
    ensures index.Some? && index.value.At? ==>
      r.At? && r.n * ChunksPerChapter <= index.value.n < (r.n + 1) * ChunksPerChapter
    ensures (index.None? || index.value.NaN?) ==> r == NaN
  {
    if index.Some? && index.value.At? then At(index.value.n / ChunksPerChapter) else NaN
  }

  /** The request of the chapter tier: the texts of the first ChunksPerChapter chunk summaries, in order. */
  function ChapterRequest(all: seq<Message>, cid: CharacterId): (r: Request)
    ensures r.endpoint == HostedService && r.characterId == cid
    ensures var chunks := Filter(all, IsChunkSummary);
            |r.history| == (if |chunks| < ChunksPerChapter then |chunks| else ChunksPerChapter)
            && forall i :: 0 <= i < |r.history| ==> r.history[i] == Turn("summary", chunks[i].parts)
  {
    var chunks := Filter(all, IsChunkSummary);
    Request(HostedService, SummaryTurns(chunks[..if |chunks| < ChunksPerChapter then |chunks| else ChunksPerChapter]), cid)
  }

  /**
   * The chapter tier, due when the snapshot holds ChunksPerChapter chunk
   * summaries, removed or not: it consumes the first ChunksPerChapter of them
   * and indexes its summary by the first one's index.
   */
  function ChapterTier(all: seq<Message>, cid: CharacterId): (r: Option<Tier>)
    ensures r.Some? <==> |Filter(all, IsChunkSummary)| >= ChunksPerChapter
    ensures r.Some? ==>
              var chunks := Filter(all, IsChunkSummary);
              r.value.level == ChapterLevel && r.value.request == ChapterRequest(all, cid)
              && r.value.index == Some(ChapterIndex(chunks[0].index))
              && r.value.consumed == chunks[..ChunksPerChapter]
              && forall i :: 0 <= i < |r.value.consumed| ==> IsChunkSummary(r.value.consumed[i])
  {
    var chunks := Filter(all, IsChunkSummary);
    if |chunks| >= ChunksPerChapter then
      Some(Tier(ChapterLevel, ChapterRequest(all, cid), Some(ChapterIndex(chunks[0].index)), chunks[..ChunksPerChapter]))
    else None
  }

  /** The request of the global tier: the texts of the first ChaptersPerGlobal chapter summaries, in order. */
  function GlobalRequest(all: seq<Message>, cid: CharacterId): (r: Request)
    ensures r.endpoint == HostedService && r.characterId == cid
    ensures var chapters := Filter(all, IsChapterSummary);
            |r.history| == (if |chapters| < ChaptersPerGlobal then |chapters| else ChaptersPerGlobal)
            && forall i :: 0 <= i < |r.history| ==> r.history[i] == Turn("summary", chapters[i].parts)
  {
    var chapters := Filter(all, IsChapterSummary);
    Request(HostedService, SummaryTurns(chapters[..if |chapters| < ChaptersPerGlobal then |chapters| else ChaptersPerGlobal]), cid)
  }

  /**
   * The global tier, due when the snapshot holds ChaptersPerGlobal chapter
   * summaries, removed or not: it consumes the first ChaptersPerGlobal of them
   * and writes its summary without an index.
   */
  function GlobalTier(all: seq<Message>, cid: CharacterId): (r: Option<Tier>)
    ensures r.Some? <==> |Filter(all, IsChapterSummary)| >= ChaptersPerGlobal
    ensures r.Some? ==>
              var chapters := Filter(all, IsChapterSummary);
              r.value.level == GlobalLevel && r.value.request == GlobalRequest(all, cid)
              && r.value.index == None && r.value.consumed == chapters[..ChaptersPerGlobal]
              && forall i :: 0 <= i < |r.value.consumed| ==> IsChapterSummary(r.value.consumed[i])
  {
    var chapters := Filter(all, IsChapterSummary);
    if |chapters| >= ChaptersPerGlobal then
      Some(Tier(GlobalLevel, GlobalRequest(all, cid), None, chapters[..ChaptersPerGlobal]))
    else None
  }

  /** A request carries only the texts of the summaries it rolls up: lists with the same texts give the same turns. */
  lemma SameTextsSameTurns(a: seq<Message>, b: seq<Message>)
    requires |a| == |b|
    requires forall i :: 0 <= i < |a| ==> a[i].parts == b[i].parts
    ensures SummaryTurns(a) == SummaryTurns(b)
  {
  }

  /**
   * When the first ChunksPerChapter chunk summaries have the same texts as the
   * first ChaptersPerGlobal chapter summaries (all of them "No summary.", say),
   * the chapter and global tiers send the very same request.
   */
  lemma ChapterAndGlobalBodiesCoincide(all: seq<Message>, cid: CharacterId)
    requires |Filter(all, IsChunkSummary)| >= ChunksPerChapter
    requires |Filter(all, IsChapterSummary)| >= ChaptersPerGlobal
    requires forall i :: 0 <= i < ChunksPerChapter ==>
               Filter(all, IsChunkSummary)[i].parts == Filter(all, IsChapterSummary)[i].parts
    ensures ChapterRequest(all, cid) == GlobalRequest(all, cid)
  {
    SameTextsSameTurns(Filter(all, IsChunkSummary)[..ChunksPerChapter], Filter(all, IsChapterSummary)[..ChaptersPerGlobal]);
  }

  /** `data.summary?.trim() || "No summary."` */
  function SummaryText(summary: Option<string>): (r: string)
    ensures r != ""
    ensures Trim(r) == r
    ensures summary.Some? && Trim(summary.value) != "" ==> r == Trim(summary.value)
    ensures (summary.None? || Trim(summary.value) == "") ==> r == NoSummary
  {
    if summary.Some? && Trim(summary.value) != "" then
      TrimIdempotent(summary.value);
      Trim(summary.value)
    else
      assert !IsWhitespace(NoSummary[0]) && NoSummary[0] == NoSummary[0..][0];
      NoSummary
  }

  /** The summary record a successful tier writes. */
  function SummaryRecord(t: Tier, summary: Option<string>): Message {
    Message(None, "summary", Some(SummaryType(t.level)), t.index, SummaryText(summary), None, false)
  }

  /**
   * What one tier does with the reply to its request: a due tier sends its one
   * request; only an ok reply appends, and then it appends the summary record
   * followed by a removed copy of each consumed record; only an exception
   * ends the pass.
   */
  function TierStep(tier: Option<Tier>, summarize: Summarizer): (r: Step)
    ensures r.requests == if tier.Some? then [tier.value.request] else []
    ensures r.threw <==> tier.Some? && summarize(tier.value.level, tier.value.request).Throw?
    ensures tier.Some? && summarize(tier.value.level, tier.value.request).Ok? ==>
              r.appended == [SummaryRecord(tier.value, summarize(tier.value.level, tier.value.request).summary)]
                            + Tombstones(tier.value.consumed)
    ensures !(tier.Some? && summarize(tier.value.level, tier.value.request).Ok?) ==> r.appended == []
  {
    match tier
    case None => Step([], [], false)
    case Some(t) =>
      match summarize(t.level, t.request)
      case Throw => Step([], [t.request], true)
      case NotOk => Step([], [t.request], false)
      case Ok(summary) => Step([SummaryRecord(t, summary)] + Tombstones(t.consumed), [t.request], false)
  }

  /** A tier whose request gets an ok reply appends its summary record and then its tombstones. */
  lemma OkTierStep(t: Tier, summarize: Summarizer)
    requires summarize(t.level, t.request).Ok?
    ensures TierStep(Some(t), summarize) == Step([SummaryRecord(t, summarize(t.level, t.request).summary)] + Tombstones(t.consumed), [t.request], false)
  {
  }

  /** Run next after first, unless first threw: a throw skips every later tier. */
  function Then(first: Step, next: Step): Step {
    if first.threw then first
    else Step(first.appended + next.appended, first.requests + next.requests, next.threw)
  }

  /**
   * One summarization pass over the snapshot all: chunk, chapter and global
   * tiers in that order, each deciding from the snapshot alone. It sends the
   * chapter request when that tier is due, then the global request when that
   * tier is due and the chapter call did not throw; it ends in an exception
   * exactly when a call it made threw.
   */
  function Pass(all: seq<Message>, cid: CharacterId, summarize: Summarizer): (r: Step)
    ensures var chapterDue := |Filter(all, IsChunkSummary)| >= ChunksPerChapter;
            var chapterThrew := chapterDue && summarize(ChapterLevel, ChapterRequest(all, cid)).Throw?;
            var globalAsked := |Filter(all, IsChapterSummary)| >= ChaptersPerGlobal && !chapterThrew;
            r.requests == (if chapterDue then [ChapterRequest(all, cid)] else [])
                          + (if globalAsked then [GlobalRequest(all, cid)] else [])
            && (r.threw <==> chapterThrew || (globalAsked && summarize(GlobalLevel, GlobalRequest(all, cid)).Throw?))
  {
    ChunkTierNeverDue(all, cid);
    var chunk := TierStep(ChunkTier(all, cid), summarize);
    var chapter := TierStep(ChapterTier(all, cid), summarize);
    var global := TierStep(GlobalTier(all, cid), summarize);
    assert chunk == Step([], [], false);
    Then(Then(chunk, chapter), global)
  }

  /** Since the chunk tier is never due, a pass is the chapter tier followed by the global tier. */
  lemma PassIsUpperTiers(all: seq<Message>, cid: CharacterId, summarize: Summarizer)
    ensures Pass(all, cid, summarize) == Then(TierStep(ChapterTier(all, cid), summarize), TierStep(GlobalTier(all, cid), summarize))
  {
    ChunkTierNeverDue(all, cid);
    var chapter := TierStep(ChapterTier(all, cid), summarize);
    assert Then(Step([], [], false), chapter) == chapter;
  }

  /**
   * A successful chapter tier appends the chapter summary, indexed by the first
   * chunk summary's index divided by ChunksPerChapter, then a removed copy of
   * each of the first ChunksPerChapter chunk summaries, in order.
   */
  lemma ChapterRollup(all: seq<Message>, cid: CharacterId, summarize: Summarizer)
    requires |Filter(all, IsChunkSummary)| >= ChunksPerChapter
    requires summarize(ChapterLevel, ChapterRequest(all, cid)).Ok?
    ensures var chunks := Filter(all, IsChunkSummary);
            var appended := Pass(all, cid, summarize).appended;
            |appended| >= 1 + ChunksPerChapter
            && appended[0] == Message(None, "summary", Some("chapter"), Some(ChapterIndex(chunks[0].index)),
                                      SummaryText(summarize(ChapterLevel, ChapterRequest(all, cid)).summary), None, false)
            && appended[1..1 + ChunksPerChapter] == Tombstones(chunks[..ChunksPerChapter])
  {
    PassIsUpperTiers(all, cid, summarize);
    var chunks := Filter(all, IsChunkSummary);
    var t := ChapterTier(all, cid).value;
    var record := SummaryRecord(t, summarize(t.level, t.request).summary);
    var tombs := Tombstones(chunks[..ChunksPerChapter]);
    var chapter := TierStep(ChapterTier(all, cid), summarize);
    assert chapter.appended == [record] + tombs;
    var rest := TierStep(GlobalTier(all, cid), summarize).appended;
    var appended := Pass(all, cid, summarize).appended;
    assert appended == [record] + tombs + rest;
    assert appended[1..1 + ChunksPerChapter] == tombs;
  }

  /**
   * A successful global tier, reached without an exception, appends a global
   * summary without index and then a removed copy of each of the first
   * ChaptersPerGlobal chapter summaries, in order, at the end of the pass.
   */
  lemma GlobalRollup(all: seq<Message>, cid: CharacterId, summarize: Summarizer)
    requires |Filter(all, IsChapterSummary)| >= ChaptersPerGlobal
    requires |Filter(all, IsChunkSummary)| >= ChunksPerChapter ==> !summarize(ChapterLevel, ChapterRequest(all, cid)).Throw?
    requires summarize(GlobalLevel, GlobalRequest(all, cid)).Ok?
    ensures var chapters := Filter(all, IsChapterSummary);
            var appended := Pass(all, cid, summarize).appended;
            var n := |appended|;
            n >= 1 + ChaptersPerGlobal
            && appended[..n - 1 - ChaptersPerGlobal] == TierStep(ChapterTier(all, cid), summarize).appended
            && appended[n - 1 - ChaptersPerGlobal] == Message(None, "summary", Some("global"), None,
                                      SummaryText(summarize(GlobalLevel, GlobalRequest(all, cid)).summary), None, false)
            && appended[n - ChaptersPerGlobal..] == Tombstones(chapters[..ChaptersPerGlobal])
  {
    PassIsUpperTiers(all, cid, summarize);
    var chapters := Filter(all, IsChapterSummary);
    var t := GlobalTier(all, cid).value;
    assert t.consumed == chapters[..ChaptersPerGlobal] && t.request == GlobalRequest(all, cid);
    OkTierStep(t, summarize);
    var first := TierStep(ChapterTier(all, cid), summarize);
    assert !first.threw;
    SplitAroundRecord(first.appended, SummaryRecord(t, summarize(t.level, t.request).summary), Tombstones(t.consumed));
  }

  /** Where the parts of a + [r] + b sit. */
  lemma SplitAroundRecord(a: seq<Message>, r: Message, b: seq<Message>)
    ensures var s := a + ([r] + b);
            s[..|a|] == a && s[|a|] == r && s[|a| + 1..] == b
  {
  }

  /** An exception in the chapter tier ends the pass: nothing is appended and the global tier is never asked. */
  lemma ChapterThrowEndsPass(all: seq<Message>, cid: CharacterId, summarize: Summarizer)
    requires |Filter(all, IsChunkSummary)| >= ChunksPerChapter
    requires summarize(ChapterLevel, ChapterRequest(all, cid)).Throw?
    ensures Pass(all, cid, summarize) == Step([], [ChapterRequest(all, cid)], true)
  {
  }

  /** A chapter response that is not ok appends nothing, and the global tier is still evaluated. */
  lemma ChapterNotOkContinues(all: seq<Message>, cid: CharacterId, summarize: Summarizer)
    requires |Filter(all, IsChunkSummary)| >= ChunksPerChapter
    requires summarize(ChapterLevel, ChapterRequest(all, cid)).NotOk?
    ensures var global := TierStep(GlobalTier(all, cid), summarize);
            Pass(all, cid, summarize) == Step(global.appended, [ChapterRequest(all, cid)] + global.requests, global.threw)
  {
  }

  /**
   * The tiers read only the snapshot taken when the pass starts: with nine
   * chapter summaries in it, a successful chapter tier brings the history to
   * ten, yet the global tier is not asked in the same pass.
   */
  lemma TiersReadTheSnapshot(all: seq<Message>, cid: CharacterId, summarize: Summarizer)
    requires |Filter(all, IsChunkSummary)| >= ChunksPerChapter
    requires |Filter(all, IsChapterSummary)| == ChaptersPerGlobal - 1
    requires summarize(ChapterLevel, ChapterRequest(all, cid)).Ok?
    ensures |Filter(all + Pass(all, cid, summarize).appended, IsChapterSummary)| == ChaptersPerGlobal
    ensures Pass(all, cid, summarize).requests == [ChapterRequest(all, cid)]
  {
    PassIsUpperTiers(all, cid, summarize);
    var chunks := Filter(all, IsChunkSummary);
    var t := ChapterTier(all, cid).value;
    assert t.consumed == chunks[..ChunksPerChapter] && t.request == ChapterRequest(all, cid);
    OkTierStep(t, summarize);
    var record := SummaryRecord(t, summarize(t.level, t.request).summary);
    var tombs := Tombstones(t.consumed);
    assert GlobalTier(all, cid) == None;
    assert Pass(all, cid, summarize).appended == [record] + tombs;
    ChapterCount(all, record, tombs);
  }

  /** Appending a chapter summary and tombstones of chunk summaries adds exactly one chapter summary. */
  lemma ChapterCount(all: seq<Message>, record: Message, tombs: seq<Message>)
    requires IsChapterSummary(record)
    requires forall i :: 0 <= i < |tombs| ==> IsChunkSummary(tombs[i])
    ensures |Filter(all + ([record] + tombs), IsChapterSummary)| == |Filter(all, IsChapterSummary)| + 1
  {
    FilterConcat(all, [record] + tombs, IsChapterSummary);
    FilterConcat([record], tombs, IsChapterSummary);
    assert Filter([record], IsChapterSummary) == [record];
    FilterNone(tombs, IsChapterSummary);
  }

  /**
   * Tombstoning appends copies and the tiers ignore `removed`, so once the
   * chapter tier is due in a snapshot it stays due, and every later pass over
   * a snapshot that extends it, whatever was appended since, takes the same
   * request and the same ten chunk summaries.
   */
  lemma ChapterTierStaysDue(all: seq<Message>, later: seq<Message>, cid: CharacterId)
    requires |Filter(all, IsChunkSummary)| >= ChunksPerChapter
    ensures ChapterTier(all + later, cid) == ChapterTier(all, cid)
  {
    var chunks := Filter(all, IsChunkSummary);
    FilterConcat(all, later, IsChunkSummary);
    var both := Filter(all + later, IsChunkSummary);
    assert both[..ChunksPerChapter] == chunks[..ChunksPerChapter];
    assert both[0] == chunks[0];
  }

  /** The callers' snapshot `[...getMessages(id), m]` after `addMessage(id, m)` counts m twice. */
  lemma SnapshotCountsNewMessageTwice(history: seq<Message>, m: Message)
    requires IsRaw(m)
    ensures |Filter(history + [m] + [m], IsRaw)| == |Filter(history, IsRaw)| + 2
  {
    FilterConcat(history + [m], [m], IsRaw);
    FilterConcat(history, [m], IsRaw);
    assert Filter([m], IsRaw) == [m];
  }

  /** What `JSON.parse(event.data)` gives: not JSON, the value null, or a value whose `role` and `parts` may be missing. */
  datatype Payload = NotJson(raw: string) | JsonNull | Json(role: Option<string>, parts: Option<string>)

  /** `{ role: parsed.role || "assistant", parts: parsed.parts?.trim() || "" }` */
  function Normalize(role: Option<string>, parts: Option<string>): (r: Message)
    ensures r.role != ""
    ensures role.Some? && role.value != "" ==> r.role == role.value
    ensures (role.None? || role.value == "") ==> r.role == "assistant"
    ensures parts.None? ==> r.parts == ""
    ensures parts.Some? ==> r.parts == Trim(parts.value)
    ensures r == Turn(r.role, r.parts)
  {
    Turn(if role.Some? && role.value != "" then role.value else "assistant",
         if parts.Some? then Trim(parts.value) else "")
  }

  /**
   * The record the socket handler stores for an inbound payload. A payload that
   * is not JSON becomes an assistant message with the trimmed raw text; the
   * JSON value null makes the handler throw before it stores anything.
   */
  function Incoming(payload: Payload): (r: Option<Message>)
    ensures r.None? <==> payload.JsonNull?
    ensures r.Some? ==> r.value.role != "" && Trim(r.value.parts) == r.value.parts
    ensures payload.NotJson? ==> r == Some(Turn("assistant", Trim(payload.raw)))
    ensures payload.Json? ==> r == Some(Normalize(payload.role, payload.parts))
  {
    match payload
    case JsonNull => None
    case NotJson(raw) =>
      TrimIdempotent(raw);
      Some(Normalize(Some("assistant"), Some(raw)))
    case Json(role, parts) =>
      if parts.Some? then TrimIdempotent(parts.value); Some(Normalize(role, parts))
      else Some(Normalize(role, parts))
  }

  /** The user message `sendMessage` stores for the input text, or None for blank input. */
  function Outgoing(input: string): (r: Option<Message>)
    ensures r.None? <==> forall k :: 0 <= k < |input| ==> IsWhitespace(input[k])
    ensures r.Some? ==> r.value == Turn("user", Trim(input)) && r.value.parts != ""
  {
    if Trim(input) == "" then None else Some(Turn("user", Trim(input)))
  }

  /** One open chat screen: the store it writes to, its character, the summarizing flag and its socket. */
  class ChatSession {
    const store: Store
    const characterId: CharacterId
    var summarizing: bool
    const socketOpen: bool
    /** The texts sent on the socket, in order. */
    ghost var sent: seq<string>

    constructor (store: Store, characterId: CharacterId, socketOpen: bool)
      ensures this.store == store && this.characterId == characterId && this.socketOpen == socketOpen
      ensures !summarizing && sent == []
    {
      this.store := store;
      this.characterId := characterId;
      this.socketOpen := socketOpen;
      summarizing := false;
      sent := [];
    }

    /** `ws.current.send(text)` on an open socket. */
    method Send(text: string)
      requires socketOpen
      modifies this`sent
      ensures sent == old(sent) + [text]
    {
      sent := sent + [text];
    }

    /** One tier of the pass: ask for a summary and, on an ok response, append it and the tombstones. */
    method RunTier(tier: Option<Tier>, summarize: Summarizer) returns (step: Step)
      requires store.Valid()
      modifies store
      ensures store.Valid()
      ensures step == TierStep(tier, summarize)
      ensures store.chatHistories == WithMessages(old(store.chatHistories), characterId, step.appended)
    {
      match tier
      case None =>
        step := Step([], [], false);
      case Some(t) =>
        var reply := summarize(t.level, t.request);
        match reply
        case Throw =>
          step := Step([], [t.request], true);
        case NotOk =>
          step := Step([], [t.request], false);
        case Ok(summary) =>
          var record := SummaryRecord(t, summary);
          store.AddMessage(characterId, record);
          AddEach(store, characterId, Tombstones(t.consumed));
          WithMessagesTwice(old(store.chatHistories), characterId, [record], Tombstones(t.consumed));
          step := Step([record] + Tombstones(t.consumed), [t.request], false);
    }

    /**
     * `triggerSummaryIfNeeded(allMessages)`: a pass that finds the flag set does
     * nothing; otherwise it sets the flag, runs the tiers over the snapshot,
     * appends what they produce to the current history, and clears the flag
     * however the tiers end.
     */
    method TriggerSummaryIfNeeded(allMessages: seq<Message>, summarize: Summarizer) returns (requests: seq<Request>)
      requires store.Valid()
      modifies this`summarizing, store
      ensures store.Valid()
      ensures summarizing == old(summarizing)
      ensures old(summarizing) ==> requests == [] && store.chatHistories == old(store.chatHistories)
      ensures !old(summarizing) ==>
                requests == Pass(allMessages, characterId, summarize).requests
                && store.chatHistories == WithMessages(old(store.chatHistories), characterId,
                                                       Pass(allMessages, characterId, summarize).appended)
    {
      if summarizing {
        return [];
      }
      summarizing := true;
      var done := RunTier(ChunkTier(allMessages, characterId), summarize);
      if !done.threw {
        var chapter := RunTier(ChapterTier(allMessages, characterId), summarize);
        WithMessagesTwice(old(store.chatHistories), characterId, done.appended, chapter.appended);
        done := Then(done, chapter);
        if !done.threw {
          var global := RunTier(GlobalTier(allMessages, characterId), summarize);
          WithMessagesTwice(old(store.chatHistories), characterId, done.appended, global.appended);
          done := Then(done, global);
        }
      }
      requests := done.requests;
      summarizing := false;
    }

    /**
     * `ws.current.onmessage`: store the normalized record, then run a pass over
     * the history followed by the same record once more.
     */
    method OnMessage(payload: Payload, summarize: Summarizer) returns (requests: seq<Request>)
      requires store.Valid()
      modifies this`summarizing, store
      ensures store.Valid()
      ensures summarizing == old(summarizing)
      ensures payload.JsonNull? ==> requests == [] && store.chatHistories == old(store.chatHistories)
      ensures !payload.JsonNull? ==>
                var incoming := Incoming(payload).value;
                var snapshot := old(store.GetMessages(characterId)) + [incoming] + [incoming];
                var pass := if old(summarizing) then Step([], [], false) else Pass(snapshot, characterId, summarize);
                requests == pass.requests
                && store.chatHistories == WithMessages(old(store.chatHistories), characterId, [incoming] + pass.appended)
    {
      var incoming := Incoming(payload);
      if incoming.None? {
        return [];
      }
      store.AddMessage(characterId, incoming.value);
      requests := TriggerSummaryIfNeeded(store.GetMessages(characterId) + [incoming.value], summarize);
      WithMessagesTwice(old(store.chatHistories), characterId, [incoming.value],
                        if old(summarizing) then [] else Pass(old(store.GetMessages(characterId)) + [incoming.value] + [incoming.value], characterId, summarize).appended);
      assert [incoming.value] + [] == [incoming.value];
    }

    /**
     * `sendMessage`: nothing for blank input or a socket that is not open;
     * otherwise store the trimmed user message, run a pass over the history
     * followed by that message once more, and send the trimmed text.
     */
    method SendMessage(input: string, summarize: Summarizer) returns (requests: seq<Request>)
      requires store.Valid()
      modifies this`summarizing, this`sent, store
      ensures store.Valid()
      ensures summarizing == old(summarizing)
      ensures Outgoing(input).None? || !socketOpen ==>
                requests == [] && store.chatHistories == old(store.chatHistories) && sent == old(sent)
      ensures Outgoing(input).Some? && socketOpen ==>
                var userMsg := Turn("user", Trim(input));
                var snapshot := old(store.GetMessages(characterId)) + [userMsg] + [userMsg];
                var pass := if old(summarizing) then Step([], [], false) else Pass(snapshot, characterId, summarize);
                requests == pass.requests
                && store.chatHistories == WithMessages(old(store.chatHistories), characterId, [userMsg] + pass.appended)
                && sent == old(sent) + [Trim(input)]
    {
      var userMsg := Outgoing(input);
      if userMsg.None? || !socketOpen {
        return [];
      }
      store.AddMessage(characterId, userMsg.value);
      requests := TriggerSummaryIfNeeded(store.GetMessages(characterId) + [userMsg.value], summarize);
      WithMessagesTwice(old(store.chatHistories), characterId, [userMsg.value],
                        if old(summarizing) then [] else Pass(old(store.GetMessages(characterId)) + [userMsg.value] + [userMsg.value], characterId, summarize).appended);
      assert [userMsg.value] + [] == [userMsg.value];
      Send(Trim(input));
    }
  }
}
