/**
 * `consume_sdk_response`: the walk over an agent response stream that forwards text to an
 * `on_text` callback and result messages to an `on_result` callback, and returns the last result
 * message. The callbacks are modelled by the sequence of calls made to them.
 */
module SdkConsume {
  import opened Wrappers

  /** One block of an assistant message. */
  datatype Block = TextBlock(text: string) | ToolUseBlock(name: string) | OtherBlock

  /** The final message of a response: the session it ran in and its result text, if any. */
  datatype ResultMessage = ResultMessage(sessionId: string, result: Option<string>)

  /** A message of the response stream. */
  datatype SdkMessage =
    | AssistantMessage(content: seq<Block>)
    | Result(message: ResultMessage)
    | OtherMessage

  /**
   * One callback call, tagged with the reason it was made: a streamed text block, the
   * separator after a tool-use gap, the result text as a fallback (all three are `on_text`
   * calls), or a result message handed to `on_result`.
   */
  datatype Event = Chunk(text: string) | Separator | Fallback(text: string) | Delivered(message: ResultMessage)

  /** The text `on_text` receives between two runs of text separated by tool use. */
  const SEPARATOR := "\n\n---\n\n"

  /** The argument of an `on_text` call; None for an `on_result` call. */
  function TextArgument(e: Event): (r: Option<string>)
    ensures r.None? <==> e.Delivered?
    ensures e.Separator? ==> r == Some(SEPARATOR)
  {
    match e
    case Chunk(t) => Some(t)
    case Separator => Some(SEPARATOR)
    case Fallback(t) => Some(t)
    case Delivered(_) => None
  }

  // ---------------------------------------------------------------------------
  // The walk, as a fold
  // ---------------------------------------------------------------------------

  /** The walk's variables: text seen, separator pending, last result, and the calls so far. */
  datatype State = State(hadText: bool, pending: bool, final: Option<ResultMessage>, events: seq<Event>)

  const Start := State(false, false, None, [])

  /** The `on_text` calls a non-empty text block causes: the pending separator, then the text. */
  function ChunkCalls(pending: bool, t: string): seq<Event> {
    (if pending then [Separator] else []) + [Chunk(t)]
  }

  /** The handling of one block. */
  function BlockStep(st: State, b: Block, onText: bool): State {
    match b
    case TextBlock(t) =>
      if t == "" then st
      else if onText then
        State(true, false, st.final, st.events + ChunkCalls(st.pending, t))
      else st.(hadText := true)
    case ToolUseBlock(_) => if st.hadText then st.(pending := true) else st
    case OtherBlock => st
  }

  /** The handling of the blocks `bs` of an assistant message, in order. */
  function BlocksStep(st: State, bs: seq<Block>, onText: bool): State {
    if bs == [] then st else BlockStep(BlocksStep(st, bs[..|bs| - 1], onText), bs[|bs| - 1], onText)
  }

  /** Whether a result message carries a non-empty result text. */
  predicate HasResultText(r: ResultMessage) {
    r.result.Some? && r.result.value != ""
  }

  /**
   * The calls a result message causes: its result text to `on_text` when no text was seen,
   * then the message to `on_result`.
   */
  function ResultCalls(hadText: bool, r: ResultMessage, onText: bool, onResult: bool): seq<Event> {
    (if !hadText && HasResultText(r) && onText then [Fallback(r.result.value)] else []) +
    (if onResult then [Delivered(r)] else [])
  }

  /** The handling of one message. */
  function MessageStep(st: State, m: SdkMessage, onText: bool, onResult: bool): State {
    match m
    case AssistantMessage(content) => BlocksStep(st, content, onText)
    case Result(r) => st.(final := Some(r), events := st.events + ResultCalls(st.hadText, r, onText, onResult))
    case OtherMessage => st
  }

  /** The state after the walk over `stream`, with or without each callback. */
  function Consume(stream: seq<SdkMessage>, onText: bool, onResult: bool): State {
    if stream == [] then Start
    else MessageStep(Consume(stream[..|stream| - 1], onText, onResult), stream[|stream| - 1], onText, onResult)
  }

  // ---------------------------------------------------------------------------
  // The method
  // ---------------------------------------------------------------------------

  /**
   * `consume_sdk_response`: returns the calls made to the callbacks (`hasOnText` and
   * `hasOnResult` say which were given) and the final result message.
   */
  method ConsumeSdkResponse(stream: seq<SdkMessage>, hasOnText: bool, hasOnResult: bool)
    returns (events: seq<Event>, final: Option<ResultMessage>)
    ensures events == Consume(stream, hasOnText, hasOnResult).events
    ensures final == Consume(stream, hasOnText, hasOnResult).final
  {
    var hadText := false;
    var pending := false;
    final := None;
    events := [];
    var i := 0;
    while i < |stream|
      invariant 0 <= i <= |stream|
      invariant State(hadText, pending, final, events) == Consume(stream[..i], hasOnText, hasOnResult)
    {
      ghost var before := State(hadText, pending, final, events);
      match stream[i] {
        case AssistantMessage(content) =>
          var j := 0;
          while j < |content|
            invariant 0 <= j <= |content|
            invariant State(hadText, pending, final, events) == BlocksStep(before, content[..j], hasOnText)
          {
            match content[j] {
              case TextBlock(t) =>
                if t != "" {
                  if hasOnText {
                    ghost var calls := ChunkCalls(pending, t);
                    ghost var events0 := events;
                    if pending {
                      events := events + [Separator];
                      pending := false;
                    }
                    events := events + [Chunk(t)];
                    assert events == events0 + calls;
                  }
                  hadText := true;
                }
              case ToolUseBlock(_) =>
                if hadText {
                  pending := true;
                }
              case OtherBlock =>
            }
            assert content[..j + 1][..j] == content[..j];
            j := j + 1;
          }
          assert content[..j] == content;
        case Result(r) =>
          ghost var calls := ResultCalls(hadText, r, hasOnText, hasOnResult);
          final := Some(r);
          if !hadText && r.result.Some? && r.result.value != "" && hasOnText {
            events := events + [Fallback(r.result.value)];
          }
          if hasOnResult {
            events := events + [Delivered(r)];
          }
          assert events == before.events + calls;
        case OtherMessage =>
      }
      assert stream[..i + 1][..i] == stream[..i];
      i := i + 1;
    }
    assert stream[..i] == stream;
  }

  // ---------------------------------------------------------------------------
  // Reference definitions
  // ---------------------------------------------------------------------------

  /** The non-empty texts of the text blocks `bs`, in order. */
  function BlockTexts(bs: seq<Block>): seq<string> {
    if bs == [] then []
    else BlockTexts(bs[..|bs| - 1]) + (if bs[|bs| - 1].TextBlock? && bs[|bs| - 1].text != "" then [bs[|bs| - 1].text] else [])
  }

  /** The non-empty texts of all text blocks of the stream, in order. */
  function StreamTexts(stream: seq<SdkMessage>): seq<string> {
    if stream == [] then []
    else
      var last := stream[|stream| - 1];
      StreamTexts(stream[..|stream| - 1]) + (if last.AssistantMessage? then BlockTexts(last.content) else [])
  }

  /** The result messages of the stream, in order. */
  function StreamResults(stream: seq<SdkMessage>): seq<ResultMessage> {
    if stream == [] then []
    else
      var last := stream[|stream| - 1];
      StreamResults(stream[..|stream| - 1]) + (if last.Result? then [last.message] else [])
  }

  /** The texts of the streamed-chunk calls, in order. */
  function Chunks(events: seq<Event>): seq<string> {
    if events == [] then []
    else Chunks(events[..|events| - 1]) + (if events[|events| - 1].Chunk? then [events[|events| - 1].text] else [])
  }

  /** The result messages handed to `on_result`, in order. */
  function DeliveredResults(events: seq<Event>): seq<ResultMessage> {
    if events == [] then []
    else
      var last := events[|events| - 1];
      DeliveredResults(events[..|events| - 1]) + (if last.Delivered? then [last.message] else [])
  }

  lemma {:induction false} ChunksAppend(a: seq<Event>, b: seq<Event>)
    ensures Chunks(a + b) == Chunks(a) + Chunks(b)
    decreases |b|
  {
    if b == [] {
      assert a + b == a;
    } else {
      assert (a + b)[..|a + b| - 1] == a + b[..|b| - 1];
      ChunksAppend(a, b[..|b| - 1]);
    }
  }

  lemma {:induction false} DeliveredAppend(a: seq<Event>, b: seq<Event>)
    ensures DeliveredResults(a + b) == DeliveredResults(a) + DeliveredResults(b)
    decreases |b|
  {
    if b == [] {
      assert a + b == a;
    } else {
      assert (a + b)[..|a + b| - 1] == a + b[..|b| - 1];
      DeliveredAppend(a, b[..|b| - 1]);
    }
  }

  // ---------------------------------------------------------------------------
  // What the walk keeps
  // ---------------------------------------------------------------------------

  /** Every separator is immediately followed by a chunk, and a chunk came before it. */
  predicate SeparatorsBetweenChunks(events: seq<Event>) {
    forall i :: 0 <= i < |events| && events[i].Separator? ==>
      i + 1 < |events| && events[i + 1].Chunk? && exists j :: 0 <= j < i && events[j].Chunk?
  }

  /** No fallback call comes after a chunk. */
  predicate NoFallbackAfterChunk(events: seq<Event>) {
    forall j, i :: 0 <= j < i < |events| && events[j].Chunk? ==> !events[i].Fallback?
  }

  /** Only `on_result` calls were made. */
  predicate OnlyResults(events: seq<Event>) {
    forall i :: 0 <= i < |events| ==> events[i].Delivered?
  }

  /** Whether any chunk call was made. */
  predicate HasChunk(events: seq<Event>) {
    exists j :: 0 <= j < |events| && events[j].Chunk?
  }

  /** The last of `results`, or None. */
  function Last(results: seq<ResultMessage>): Option<ResultMessage> {
    if results == [] then None else Some(results[|results| - 1])
  }

  /**
   * The invariant of the walk after it has seen the non-empty texts `texts` and the result
   * messages `results`: the had-text flag says whether there was text; with `on_text` the
   * chunks are exactly those texts, without it no `on_text` call is made; a pending separator
   * needs earlier text; the results handed over are those seen; the final result is the last.
   */
  predicate Inv(st: State, texts: seq<string>, results: seq<ResultMessage>, onText: bool, onResult: bool) {
    && (st.hadText <==> texts != [])
    && (onText ==> Chunks(st.events) == texts && (st.hadText <==> HasChunk(st.events)))
    && (!onText ==> OnlyResults(st.events))
    && (st.pending ==> st.hadText)
    && SeparatorsBetweenChunks(st.events)
    && NoFallbackAfterChunk(st.events)
    && DeliveredResults(st.events) == (if onResult then results else [])
    && st.final == Last(results)
  }

  /** A one-block message contributes its text, if it is a non-empty text block. */
  lemma BlockTextsOne(b: Block)
    ensures BlockTexts([b]) == (if b.TextBlock? && b.text != "" then [b.text] else [])
  {
    assert [b][..0] == [];
  }

  /** The calls a forwarded text block adds: an optional separator, then the chunk. */
  lemma ChunkCallsShape(pending: bool, t: string)
    ensures var added := ChunkCalls(pending, t);
      Chunks(added) == [t] && DeliveredResults(added) == [] && forall k :: 0 <= k < |added| ==> !added[k].Fallback?
  {
    var added := ChunkCalls(pending, t);
    assert added[..|added| - 1] == (if pending then [Separator] else []);
    if pending {
      assert [Separator][..0] == [];
    }
  }

  /** Appending a chunk, after a separator only when text came before, keeps separators in place. */
  lemma AppendChunkSeparators(events: seq<Event>, pending: bool, t: string)
    requires SeparatorsBetweenChunks(events) && (pending ==> HasChunk(events))
    ensures var all := events + ChunkCalls(pending, t);
      SeparatorsBetweenChunks(all) && HasChunk(all)
  {
    var all := events + ChunkCalls(pending, t);
    assert all[|all| - 1].Chunk?;
    forall i | 0 <= i < |all| && all[i].Separator?
      ensures i + 1 < |all| && all[i + 1].Chunk? && exists j :: 0 <= j < i && all[j].Chunk?
    {
      if i < |events| {
        assert events[i].Separator?;
        var j :| 0 <= j < i && events[j].Chunk?;
        assert all[j].Chunk?;
      } else {
        assert pending && i == |events|;
        var j :| 0 <= j < |events| && events[j].Chunk?;
        assert all[j].Chunk?;
      }
    }
  }

  /** Appending chunk calls adds no fallback. */
  lemma AppendChunkNoFallback(events: seq<Event>, added: seq<Event>)
    requires NoFallbackAfterChunk(events) && forall k :: 0 <= k < |added| ==> !added[k].Fallback?
    ensures NoFallbackAfterChunk(events + added)
  {
    var all := events + added;
    forall j, i | 0 <= j < i < |all| && all[j].Chunk? ensures !all[i].Fallback? {
      if i < |events| {
        assert events[j].Chunk?;
      } else {
        assert all[i] == added[i - |events|];
      }
    }
  }

  /** Forwarding a non-empty text block to `on_text` keeps the invariant. */
  lemma ChunkStepInv(st: State, texts: seq<string>, results: seq<ResultMessage>, t: string, onResult: bool)
    requires Inv(st, texts, results, true, onResult) && t != ""
    ensures Inv(BlockStep(st, TextBlock(t), true), texts + [t], results, true, onResult)
  {
    var added := ChunkCalls(st.pending, t);
    var events := st.events + added;
    assert BlockStep(st, TextBlock(t), true) == State(true, false, st.final, events);
    ChunkCallsShape(st.pending, t);
    ChunksAppend(st.events, added);
    DeliveredAppend(st.events, added);
    AppendChunkSeparators(st.events, st.pending, t);
    AppendChunkNoFallback(st.events, added);
  }

  /** Handling one block keeps the invariant, adding the block's text to the texts seen. */
  lemma BlockStepInv(st: State, texts: seq<string>, results: seq<ResultMessage>, b: Block, onText: bool, onResult: bool,
                     texts': seq<string>)
    requires Inv(st, texts, results, onText, onResult) && texts' == texts + BlockTexts([b])
    ensures Inv(BlockStep(st, b, onText), texts', results, onText, onResult)
  {
    BlockTextsOne(b);
    if b.TextBlock? && b.text != "" {
      if onText {
        ChunkStepInv(st, texts, results, b.text, onResult);
      }
    } else {
      assert texts + BlockTexts([b]) == texts;
    }
  }

  /** The texts seen after a message's blocks: those before its last block, then that block's. */
  lemma BlockTextsLast(texts: seq<string>, bs: seq<Block>)
    requires bs != []
    ensures texts + BlockTexts(bs) == texts + BlockTexts(bs[..|bs| - 1]) + BlockTexts([bs[|bs| - 1]])
  {
    var init, b := bs[..|bs| - 1], bs[|bs| - 1];
    BlockTextsOne(b);
    assert BlockTexts(bs) == BlockTexts(init) + BlockTexts([b]);
    AppendAssoc(texts, BlockTexts(init), BlockTexts([b]));
  }

  /** Handling the blocks of a message keeps the invariant, adding their texts in order. */
  lemma {:induction false} BlocksStepInv(st: State, texts: seq<string>, results: seq<ResultMessage>,
                                         bs: seq<Block>, onText: bool, onResult: bool)
    requires Inv(st, texts, results, onText, onResult)
    ensures Inv(BlocksStep(st, bs, onText), texts + BlockTexts(bs), results, onText, onResult)
    decreases |bs|
  {
    if bs == [] {
      assert texts + BlockTexts(bs) == texts;
    } else {
      var init := bs[..|bs| - 1];
      BlocksStepInv(st, texts, results, init, onText, onResult);
      BlockTextsLast(texts, bs);
      assert BlocksStep(st, bs, onText) == BlockStep(BlocksStep(st, init, onText), bs[|bs| - 1], onText);
      BlockStepInv(BlocksStep(st, init, onText), texts + BlockTexts(init), results, bs[|bs| - 1], onText, onResult,
                   texts + BlockTexts(bs));
    }
  }

  /** Calls with no chunk among them add no chunk text. */
  lemma {:induction false} ChunksNone(added: seq<Event>)
    requires forall k :: 0 <= k < |added| ==> !added[k].Chunk?
    ensures Chunks(added) == []
    decreases |added|
  {
    if added != [] {
      ChunksNone(added[..|added| - 1]);
    }
  }

  /** Appending fallback and result calls keeps separators in place and adds no chunk. */
  lemma AppendNoChunks(events: seq<Event>, added: seq<Event>)
    requires forall k :: 0 <= k < |added| ==> added[k].Fallback? || added[k].Delivered?
    requires SeparatorsBetweenChunks(events)
    ensures SeparatorsBetweenChunks(events + added)
    ensures Chunks(events + added) == Chunks(events)
    ensures HasChunk(events + added) <==> HasChunk(events)
  {
    var all := events + added;
    ChunksNone(added);
    ChunksAppend(events, added);
    forall i | 0 <= i < |all| && all[i].Separator?
      ensures i + 1 < |all| && all[i + 1].Chunk? && exists j :: 0 <= j < i && all[j].Chunk?
    {
      assert i < |events| && events[i].Separator?;
      var j :| 0 <= j < i && events[j].Chunk?;
      assert all[j].Chunk?;
    }
    if HasChunk(all) {
      var j :| 0 <= j < |all| && all[j].Chunk?;
      assert j < |events| && events[j].Chunk?;
    }
    if HasChunk(events) {
      var j :| 0 <= j < |events| && events[j].Chunk?;
      assert all[j].Chunk?;
    }
  }

  /** A fallback call appended where no chunk was made keeps fallbacks before every chunk. */
  lemma AppendFallback(events: seq<Event>, added: seq<Event>)
    requires forall k :: 0 <= k < |added| ==> !added[k].Chunk?
    requires NoFallbackAfterChunk(events)
    requires (exists k :: 0 <= k < |added| && added[k].Fallback?) ==> !HasChunk(events)
    ensures NoFallbackAfterChunk(events + added)
  {
    var all := events + added;
    forall j, i | 0 <= j < i < |all| && all[j].Chunk? ensures !all[i].Fallback? {
      assert j < |events| && events[j].Chunk?;
      if i >= |events| {
        assert HasChunk(events);
        assert added[i - |events|] == all[i];
      }
    }
  }

  /** What the calls a result message adds are made of. */
  lemma ResultCallsShape(hadText: bool, r: ResultMessage, onText: bool, onResult: bool)
    ensures var added := ResultCalls(hadText, r, onText, onResult);
      (forall k :: 0 <= k < |added| ==> added[k].Fallback? || added[k].Delivered?) &&
      (!onText ==> forall k :: 0 <= k < |added| ==> added[k].Delivered?) &&
      ((exists k :: 0 <= k < |added| && added[k].Fallback?) ==> !hadText) &&
      DeliveredResults(added) == (if onResult then [r] else [])
  {
    var fallback := if !hadText && HasResultText(r) && onText then [Fallback(r.result.value)] else [];
    var delivered := if onResult then [Delivered(r)] else [];
    assert ResultCalls(hadText, r, onText, onResult) == fallback + delivered;
    DeliveredAppend(fallback, delivered);
    if fallback != [] {
      assert fallback[..0] == [];
    }
    if onResult {
      assert delivered[..0] == [];
    }
  }

  /** Appending calls to `on_result` only keeps a record of result calls only. */
  lemma AppendOnlyResults(events: seq<Event>, added: seq<Event>)
    requires OnlyResults(events)
    requires forall k :: 0 <= k < |added| ==> added[k].Delivered?
    ensures OnlyResults(events + added)
  {
    var all := events + added;
    forall i | 0 <= i < |all| ensures all[i].Delivered? {
      if i < |events| {
        assert all[i] == events[i];
      } else {
        assert all[i] == added[i - |events|];
      }
    }
  }

  /** The record after a result message's calls keeps its chunks, and its separators in place. */
  lemma ResultEventsChunks(st: State, texts: seq<string>, results: seq<ResultMessage>, r: ResultMessage,
                           onText: bool, onResult: bool)
    requires Inv(st, texts, results, onText, onResult)
    ensures var events := st.events + ResultCalls(st.hadText, r, onText, onResult);
      && (onText ==> Chunks(events) == texts && (st.hadText <==> HasChunk(events)))
      && (!onText ==> OnlyResults(events))
      && SeparatorsBetweenChunks(events)
  {
    var added := ResultCalls(st.hadText, r, onText, onResult);
    ResultCallsShape(st.hadText, r, onText, onResult);
    AppendNoChunks(st.events, added);
    if !onText {
      AppendOnlyResults(st.events, added);
    }
  }

  /** The record after a result message's calls has no fallback after a chunk, and one more result handed over. */
  lemma ResultEventsDelivered(st: State, texts: seq<string>, results: seq<ResultMessage>, r: ResultMessage,
                              onText: bool, onResult: bool)
    requires Inv(st, texts, results, onText, onResult)
    ensures var events := st.events + ResultCalls(st.hadText, r, onText, onResult);
      && NoFallbackAfterChunk(events)
      && DeliveredResults(events) == (if onResult then results + [r] else [])
  {
    var added := ResultCalls(st.hadText, r, onText, onResult);
    ResultCallsShape(st.hadText, r, onText, onResult);
    AppendFallback(st.events, added);
    DeliveredAppend(st.events, added);
  }

  /** Handling a result message keeps the invariant, adding the message to the results seen. */
  lemma ResultStepInv(st: State, texts: seq<string>, results: seq<ResultMessage>, r: ResultMessage,
                      onText: bool, onResult: bool)
    requires Inv(st, texts, results, onText, onResult)
    ensures Inv(MessageStep(st, Result(r), onText, onResult), texts, results + [r], onText, onResult)
  {
    var events := st.events + ResultCalls(st.hadText, r, onText, onResult);
    assert MessageStep(st, Result(r), onText, onResult) == State(st.hadText, st.pending, Some(r), events);
    ResultEventsChunks(st, texts, results, r, onText, onResult);
    ResultEventsDelivered(st, texts, results, r, onText, onResult);
    assert Last(results + [r]) == Some(r);
  }

  /** The walk keeps the invariant over the whole stream. */
  lemma {:induction false} ConsumeInv(stream: seq<SdkMessage>, onText: bool, onResult: bool)
    ensures Inv(Consume(stream, onText, onResult), StreamTexts(stream), StreamResults(stream), onText, onResult)
    decreases |stream|
  {
    if stream != [] {
      var init := stream[..|stream| - 1];
      var st := Consume(init, onText, onResult);
      ConsumeInv(init, onText, onResult);
      var last := stream[|stream| - 1];
      assert Consume(stream, onText, onResult) == MessageStep(st, last, onText, onResult);
      assert StreamTexts(stream) == StreamTexts(init) + (if last.AssistantMessage? then BlockTexts(last.content) else []);
      assert StreamResults(stream) == StreamResults(init) + (if last.Result? then [last.message] else []);
      match last {
        case AssistantMessage(content) =>
          assert StreamResults(stream) == StreamResults(init);
          BlocksStepInv(st, StreamTexts(init), StreamResults(init), content, onText, onResult);
        case Result(r) =>
          assert StreamTexts(stream) == StreamTexts(init);
          ResultStepInv(st, StreamTexts(init), StreamResults(init), r, onText, onResult);
        case OtherMessage =>
          assert StreamTexts(stream) == StreamTexts(init);
          assert StreamResults(stream) == StreamResults(init);
      }
    }
  }

  // ---------------------------------------------------------------------------
  // What the caller gets
  // ---------------------------------------------------------------------------

  /** With `on_text`, every non-empty text block is forwarded exactly once, in stream order. */
  lemma TextsForwardedInOrder(stream: seq<SdkMessage>, onResult: bool)
    ensures Chunks(Consume(stream, true, onResult).events) == StreamTexts(stream)
  {
    ConsumeInv(stream, true, onResult);
  }

  /** Without `on_text`, only `on_result` is ever called. */
  lemma NoTextCallsWithoutOnText(stream: seq<SdkMessage>, onResult: bool)
    ensures var events := Consume(stream, false, onResult).events;
      forall i :: 0 <= i < |events| ==> TextArgument(events[i]).None?
  {
    ConsumeInv(stream, false, onResult);
  }

  /**
   * A separator is sent only between two forwarded texts (a text, tool use, then more text),
   * never before the first text and never at the end.
   */
  lemma SeparatorOnlyBetweenTexts(stream: seq<SdkMessage>, onText: bool, onResult: bool)
    ensures var events := Consume(stream, onText, onResult).events;
      forall i :: 0 <= i < |events| && events[i].Separator? ==>
        i + 1 < |events| && events[i + 1].Chunk? && exists j :: 0 <= j < i && events[j].Chunk?
  {
    ConsumeInv(stream, onText, onResult);
  }

  /** The result text is never sent to `on_text` after streamed text: no duplicated reply. */
  lemma NoFallbackAfterStreamedText(stream: seq<SdkMessage>, onText: bool, onResult: bool)
    ensures var events := Consume(stream, onText, onResult).events;
      forall j, i :: 0 <= j < i < |events| && events[j].Chunk? ==> !events[i].Fallback?
  {
    ConsumeInv(stream, onText, onResult);
  }

  /**
   * When no text block has been seen, a result message with a non-empty result sends that
   * result to `on_text`, before the message itself goes to `on_result`.
   */
  lemma FallbackWhenNoText(init: seq<SdkMessage>, r: ResultMessage, onResult: bool)
    requires StreamTexts(init) == [] && HasResultText(r)
    ensures Consume(init + [Result(r)], true, onResult).events ==
      Consume(init, true, onResult).events + [Fallback(r.result.value)] + (if onResult then [Delivered(r)] else [])
  {
    ConsumeInv(init, true, onResult);
    var stream := init + [Result(r)];
    assert stream[..|stream| - 1] == init;
  }

  /** With `on_result`, every result message is handed over once, in order; without it, none. */
  lemma ResultsDeliveredInOrder(stream: seq<SdkMessage>, onText: bool, onResult: bool)
    ensures DeliveredResults(Consume(stream, onText, onResult).events) == (if onResult then StreamResults(stream) else [])
  {
    ConsumeInv(stream, onText, onResult);
  }

  /** The result messages of a stream are empty exactly when it holds no result message. */
  lemma {:induction false} NoResults(stream: seq<SdkMessage>)
    ensures StreamResults(stream) == [] <==> forall i :: 0 <= i < |stream| ==> !stream[i].Result?
    decreases |stream|
  {
    if stream != [] {
      var init := stream[..|stream| - 1];
      NoResults(init);
      assert forall i :: 0 <= i < |init| ==> init[i] == stream[i];
    }
  }

  /**
   * The value returned is the last result message of the stream, and None exactly when the
   * stream holds no result message.
   */
  lemma FinalIsLastResult(stream: seq<SdkMessage>, onText: bool, onResult: bool)
    ensures var final := Consume(stream, onText, onResult).final;
      final == Last(StreamResults(stream)) &&
      (final.None? <==> forall i :: 0 <= i < |stream| ==> !stream[i].Result?)
  {
    ConsumeInv(stream, onText, onResult);
    NoResults(stream);
  }

  // ---------------------------------------------------------------------------
  // Separators, by a reference definition
  // ---------------------------------------------------------------------------

  /** The blocks of every assistant message of the stream, in order. */
  function StreamBlocks(stream: seq<SdkMessage>): seq<Block> {
    if stream == [] then []
    else
      var last := stream[|stream| - 1];
      StreamBlocks(stream[..|stream| - 1]) + (if last.AssistantMessage? then last.content else [])
  }

  /** Whether `b` is a text block with non-empty text: the blocks that are forwarded. */
  predicate NonEmptyText(b: Block) {
    b.TextBlock? && b.text != ""
  }

  /** Whether some block of `bs` is forwarded text. */
  predicate HasText(bs: seq<Block>) {
    exists i :: 0 <= i < |bs| && NonEmptyText(bs[i])
  }

  /**
   * Whether a text block coming after `bs` follows a gap: some tool-use block of `bs` has
   * forwarded text before it and none after it.
   */
  predicate GapBefore(bs: seq<Block>) {
    exists t :: 0 <= t < |bs| && bs[t].ToolUseBlock? && HasText(bs[..t]) && !HasText(bs[t + 1..])
  }

  /**
   * The `on_text` calls the blocks `bs` should cause: each forwarded text, preceded by the
   * separator exactly when a tool-use block lies between it and the forwarded text before it.
   */
  function Streamed(bs: seq<Block>): seq<Event> {
    if bs == [] then []
    else
      var init, b := bs[..|bs| - 1], bs[|bs| - 1];
      Streamed(init) + (if NonEmptyText(b) then (if GapBefore(init) then [Separator] else []) + [Chunk(b.text)] else [])
  }

  /** The streamed `on_text` calls of a record: its chunks and separators, in order. */
  function StreamedCalls(events: seq<Event>): seq<Event> {
    if events == [] then []
    else
      var last := events[|events| - 1];
      StreamedCalls(events[..|events| - 1]) + (if last.Chunk? || last.Separator? then [last] else [])
  }

  lemma {:induction false} StreamedCallsAppend(a: seq<Event>, b: seq<Event>)
    ensures StreamedCalls(a + b) == StreamedCalls(a) + StreamedCalls(b)
    decreases |b|
  {
    if b == [] {
      assert a + b == a;
    } else {
      assert (a + b)[..|a + b| - 1] == a + b[..|b| - 1];
      StreamedCallsAppend(a, b[..|b| - 1]);
    }
  }

  /** One more block has forwarded text exactly when it or an earlier one is forwarded text. */
  lemma HasTextSnoc(bs: seq<Block>, b: Block)
    ensures HasText(bs + [b]) <==> HasText(bs) || NonEmptyText(b)
  {
    var all := bs + [b];
    if HasText(all) && !NonEmptyText(b) {
      var i :| 0 <= i < |all| && NonEmptyText(all[i]);
      assert i < |bs| && all[i] == bs[i];
    }
    if HasText(bs) {
      var i :| 0 <= i < |bs| && NonEmptyText(bs[i]);
      assert all[i] == bs[i];
    }
    if NonEmptyText(b) {
      assert all[|bs|] == b;
    }
  }

  /** A gap needs forwarded text before it. */
  lemma GapNeedsText(bs: seq<Block>)
    requires GapBefore(bs)
    ensures HasText(bs)
  {
    var t :| 0 <= t < |bs| && bs[t].ToolUseBlock? && HasText(bs[..t]) && !HasText(bs[t + 1..]);
    var i :| 0 <= i < t && NonEmptyText(bs[..t][i]);
    assert bs[i] == bs[..t][i];
  }

  /** Forwarded text closes the gap. */
  lemma GapClosedByText(bs: seq<Block>, b: Block)
    requires NonEmptyText(b)
    ensures !GapBefore(bs + [b])
  {
    var all := bs + [b];
    forall t | 0 <= t < |all| && all[t].ToolUseBlock?
      ensures HasText(all[t + 1..])
    {
      assert t < |bs| && all[t + 1..][|bs| - t - 1] == b;
    }
  }

  /** Tool use opens a gap exactly when there was forwarded text before it. */
  lemma GapOpenedByToolUse(bs: seq<Block>, b: Block)
    requires b.ToolUseBlock?
    ensures GapBefore(bs + [b]) <==> HasText(bs)
  {
    var all := bs + [b];
    assert all[..|bs|] == bs;
    if GapBefore(all) {
      var t :| 0 <= t < |all| && all[t].ToolUseBlock? && HasText(all[..t]) && !HasText(all[t + 1..]);
      var i :| 0 <= i < t && NonEmptyText(all[..t][i]);
      assert bs[i] == all[..t][i];
    }
    if HasText(bs) {
      assert all[|bs| + 1..] == [];
      assert all[|bs|].ToolUseBlock? && HasText(all[..|bs|]) && !HasText(all[|bs| + 1..]);
    }
  }

  /** Any other block leaves the gap as it was. */
  lemma GapKept(bs: seq<Block>, b: Block)
    requires !NonEmptyText(b) && !b.ToolUseBlock?
    ensures GapBefore(bs + [b]) <==> GapBefore(bs)
  {
    var all := bs + [b];
    if GapBefore(all) {
      var t :| 0 <= t < |all| && all[t].ToolUseBlock? && HasText(all[..t]) && !HasText(all[t + 1..]);
      assert t < |bs|;
      assert all[..t] == bs[..t] && all[t + 1..] == bs[t + 1..] + [b];
      HasTextSnoc(bs[t + 1..], b);
      assert bs[t].ToolUseBlock? && HasText(bs[..t]) && !HasText(bs[t + 1..]);
    }
    if GapBefore(bs) {
      var t :| 0 <= t < |bs| && bs[t].ToolUseBlock? && HasText(bs[..t]) && !HasText(bs[t + 1..]);
      assert all[..t] == bs[..t] && all[t + 1..] == bs[t + 1..] + [b];
      HasTextSnoc(bs[t + 1..], b);
      assert all[t].ToolUseBlock? && HasText(all[..t]) && !HasText(all[t + 1..]);
    }
  }

  /**
   * How one more block changes the gap: forwarded text closes it, tool use opens it once
   * there was text, and any other block leaves it as it was.
   */
  lemma GapSnoc(bs: seq<Block>, b: Block)
    ensures GapBefore(bs + [b]) ==
      if NonEmptyText(b) then false else if b.ToolUseBlock? then HasText(bs) else GapBefore(bs)
  {
    if NonEmptyText(b) {
      GapClosedByText(bs, b);
    } else if b.ToolUseBlock? {
      GapOpenedByToolUse(bs, b);
    } else {
      GapKept(bs, b);
    }
  }

  /**
   * The walk with `on_text` after the blocks `bs`: text was seen exactly when `bs` holds
   * forwarded text, a separator is pending exactly at a gap, and the streamed calls so far are
   * those the reference gives.
   */
  predicate SepInv(st: State, bs: seq<Block>) {
    && (st.hadText <==> HasText(bs))
    && (st.pending <==> GapBefore(bs))
    && StreamedCalls(st.events) == Streamed(bs)
  }

  /** Handling one block with `on_text` keeps the walk in step with the reference. */
  lemma BlockSepInv(st: State, bs: seq<Block>, b: Block)
    requires SepInv(st, bs)
    ensures SepInv(BlockStep(st, b, true), bs + [b])
  {
    var all := bs + [b];
    assert all[..|all| - 1] == bs && all[|all| - 1] == b;
    HasTextSnoc(bs, b);
    GapSnoc(bs, b);
    if NonEmptyText(b) {
      var added := ChunkCalls(st.pending, b.text);
      StreamedCallsAppend(st.events, added);
      assert StreamedCalls(added) == added by {
        assert added[..|added| - 1] == (if st.pending then [Separator] else []);
        if st.pending {
          assert [Separator][..0] == [];
        }
      }
    } else if b.ToolUseBlock? && !st.hadText {
      if GapBefore(bs) {
        GapNeedsText(bs);
      }
    }
  }

  /** Handling a message's blocks with `on_text` keeps the walk in step with the reference. */
  lemma {:induction false} BlocksSepInv(st: State, pre: seq<Block>, bs: seq<Block>)
    requires SepInv(st, pre)
    ensures SepInv(BlocksStep(st, bs, true), pre + bs)
    decreases |bs|
  {
    if bs == [] {
      assert pre + bs == pre;
    } else {
      var init, b := bs[..|bs| - 1], bs[|bs| - 1];
      BlocksSepInv(st, pre, init);
      BlockSepInv(BlocksStep(st, init, true), pre + init, b);
      assert pre + bs == pre + init + [b];
    }
  }

  /** A result message adds no streamed call and leaves the flags alone. */
  lemma ResultSepInv(st: State, bs: seq<Block>, r: ResultMessage, onResult: bool)
    requires SepInv(st, bs)
    ensures SepInv(MessageStep(st, Result(r), true, onResult), bs)
  {
    var added := ResultCalls(st.hadText, r, true, onResult);
    ResultCallsShape(st.hadText, r, true, onResult);
    StreamedCallsAppend(st.events, added);
    assert StreamedCalls(added) == [] by {
      var fallback := if !st.hadText && HasResultText(r) then [Fallback(r.result.value)] else [];
      var delivered := if onResult then [Delivered(r)] else [];
      assert added == fallback + delivered;
      StreamedCallsAppend(fallback, delivered);
      if fallback != [] {
        assert fallback[..0] == [];
      }
      if onResult {
        assert delivered[..0] == [];
      }
    }
  }

  /**
   * With `on_text`, the streamed `on_text` calls of the walk are exactly the reference's: every
   * forwarded text in stream order, each preceded by the separator exactly when a tool-use
   * block lies between it and the forwarded text before it, across message boundaries.
   */
  lemma {:induction false} StreamedAsReference(stream: seq<SdkMessage>, onResult: bool)
    ensures StreamedCalls(Consume(stream, true, onResult).events) == Streamed(StreamBlocks(stream))
  {
    ConsumeSepInv(stream, onResult);
  }

  /** The walk with `on_text` keeps in step with the reference over the whole stream. */
  lemma {:induction false} ConsumeSepInv(stream: seq<SdkMessage>, onResult: bool)
    ensures SepInv(Consume(stream, true, onResult), StreamBlocks(stream))
    decreases |stream|
  {
    if stream == [] {
      assert !HasText([]) && !GapBefore([]);
    } else {
      var init := stream[..|stream| - 1];
      var st := Consume(init, true, onResult);
      ConsumeSepInv(init, onResult);
      var last := stream[|stream| - 1];
      assert Consume(stream, true, onResult) == MessageStep(st, last, true, onResult);
      match last {
        case AssistantMessage(content) =>
          assert StreamBlocks(stream) == StreamBlocks(init) + content;
          BlocksSepInv(st, StreamBlocks(init), content);
        case Result(r) =>
          assert StreamBlocks(stream) == StreamBlocks(init) + [] == StreamBlocks(init);
          ResultSepInv(st, StreamBlocks(init), r, onResult);
        case OtherMessage =>
          assert StreamBlocks(stream) == StreamBlocks(init) + [] == StreamBlocks(init);
      }
    }
  }

  /**
   * Text, a tool call, more text, then the result: the two texts are forwarded with one
   * separator between them, the result text is not sent again, and the result is returned.
   */
  lemma StreamedReplyExample(a: string, b: string, r: ResultMessage)
    requires a != "" && b != "" && HasResultText(r)
    ensures var st := Consume([AssistantMessage([TextBlock(a), ToolUseBlock("Bash"), TextBlock(b)]), Result(r)], true, true);
      st.events == [Chunk(a), Separator, Chunk(b), Delivered(r)] && st.final == Some(r)
  {
    var bs := [TextBlock(a), ToolUseBlock("Bash"), TextBlock(b)];
    assert bs[..1][..0] == [] && bs[..2][..1] == bs[..1] && bs[..3][..2] == bs[..2] && bs[..3] == bs;
    var s1 := State(true, false, None, [Chunk(a)]);
    assert BlocksStep(Start, bs[..1], true) == s1;
    assert BlocksStep(Start, bs[..2], true) == s1.(pending := true);
    assert BlocksStep(Start, bs, true) == State(true, false, None, [Chunk(a), Separator, Chunk(b)]);
    var stream := [AssistantMessage(bs), Result(r)];
    assert stream[..1][..0] == [] && stream[..2][..1] == [AssistantMessage(bs)] && stream[..2] == stream;
    assert Consume([AssistantMessage(bs)], true, true) == State(true, false, None, [Chunk(a), Separator, Chunk(b)]);
  }
}
