/** Anthropic messages as OpenAI chat completions (adapter/anthropic.go:241-395): the streaming translator against
    the conversion of the assembled message. Tool arguments are compared as the text that was streamed; the
    conversion re-encodes the same JSON value. */
module AnthropicStream {
  import opened Wrappers

  // ---------------------------------------------------------------- what comes in

  datatype BlockKind = TextBlock | ThinkingBlock | ToolBlock(id: string, name: string) | OtherBlock

  datatype Delta = TextDelta(text: string) | ThinkingDelta(text: string) | JsonDelta(text: string) | OtherDelta

  datatype Event =
    | MessageStart(id: string, model: string)
    | BlockStart(index: int, kind: BlockKind, initial: string)
    | BlockDelta(index: int, delta: Delta)
    | BlockStop(index: int)
    | MessageDelta(stopReason: string)
    | MessageStop
    | Ping
    | StreamError

  /** A content block of the assembled message: what its start carried and what its deltas added. */
  datatype Block = Block(kind: BlockKind, initial: string, streamed: string)

  // ---------------------------------------------------------------- what goes out

  datatype ChunkDelta =
    | Role
    | Content(text: string)
    | Reasoning(text: string)
    | ToolStart(index: int, id: string, name: string)
    | ToolArguments(index: int, text: string)
    | Nothing

  datatype Chunk = Chunk(id: string, model: string, delta: ChunkDelta, finish: Option<string>)

  datatype ToolCall = ToolCall(id: string, name: string, arguments: string)

  datatype Completion = Completion(
    id: string, model: string, content: string, reasoning: string, tools: seq<ToolCall>, finish: Option<string>)

  function MapStopReason(reason: string): string {
    if reason == "max_tokens" then "length"
    else if reason == "tool_use" then "tool_calls"
    else if reason == "stop_sequence" || reason == "end_turn" then "stop"
    else reason
  }

  // ---------------------------------------------------------------- the streaming translator

  datatype Translator = Translator(
    id: string, model: string, toolIndexes: map<int, int>, toolCount: int, out: seq<Chunk>, aborted: bool)

  function Emit(t: Translator, delta: ChunkDelta, finish: Option<string>): Translator {
    t.(out := t.out + [Chunk(t.id, t.model, delta, finish)])
  }

  function Translate(t: Translator, e: Event): Translator {
    if t.aborted then t
    else
      match e
      case MessageStart(id, model) => Emit(t.(id := id, model := model), Role, None)
      case BlockStart(index, kind, _) =>
        if kind.ToolBlock? then
          Emit(t.(toolIndexes := t.toolIndexes[index := t.toolCount], toolCount := t.toolCount + 1),
               ToolStart(t.toolCount, kind.id, kind.name), None)
        else t
      case BlockDelta(index, delta) =>
        (match delta
         case TextDelta(text) => Emit(t, Content(text), None)
         case ThinkingDelta(text) => Emit(t, Reasoning(text), None)
         case JsonDelta(text) =>
           Emit(t, ToolArguments(if index in t.toolIndexes then t.toolIndexes[index] else 0, text), None)
         case OtherDelta => t)
      case MessageDelta(reason) => Emit(t, Nothing, Some(MapStopReason(reason)))
      case StreamError => t.(aborted := true)
      case _ => t
  }

  function Translated(events: seq<Event>, fallback: string): Translator {
    if events == [] then Translator("", fallback, map[], 0, [], false)
    else Translate(Translated(events[..|events| - 1], fallback), events[|events| - 1])
  }

  // ---------------------------------------------------------------- what a client makes of the chunks

  function Merge(c: Completion, chunk: Chunk): Completion {
    var c1 := c.(id := chunk.id, model := chunk.model, finish := if chunk.finish.Some? then chunk.finish else c.finish);
    match chunk.delta
    case Role => c1
    case Content(text) => c1.(content := c.content + text)
    case Reasoning(text) => c1.(reasoning := c.reasoning + text)
    case ToolStart(index, id, name) =>
      if 0 <= index < |c.tools| then c1.(tools := c.tools[index := c.tools[index].(id := id, name := name)])
      else c1.(tools := c.tools + [ToolCall(id, name, "")])
    case ToolArguments(index, text) =>
      if 0 <= index < |c.tools|
      then c1.(tools := c.tools[index := c.tools[index].(arguments := c.tools[index].arguments + text)])
      else c1
    case Nothing => c1
  }

  function Accumulated(chunks: seq<Chunk>): Completion {
    if chunks == [] then Completion("", "", "", "", [], None)
    else Merge(Accumulated(chunks[..|chunks| - 1]), chunks[|chunks| - 1])
  }

  // ---------------------------------------------------------------- the assembled message

  datatype Message = Message(id: string, model: string, blocks: seq<Block>, stopReason: string)

  function Grow(m: Message, e: Event): Message {
    match e
    case MessageStart(id, model) => m.(id := id, model := model)
    case BlockStart(_, kind, initial) => m.(blocks := m.blocks + [Block(kind, initial, "")])
    case BlockDelta(index, delta) =>
      if 0 <= index < |m.blocks| && !delta.OtherDelta? then
        var b := m.blocks[index];
        m.(blocks := m.blocks[index := b.(streamed := b.streamed + delta.text)])
      else m
    case MessageDelta(reason) => m.(stopReason := reason)
    case _ => m
  }

  function Assembled(events: seq<Event>): Message {
    if events == [] then Message("", "", [], "") else Grow(Assembled(events[..|events| - 1]), events[|events| - 1])
  }

  function Joined(blocks: seq<Block>, part: Block -> string): string {
    if blocks == [] then "" else Joined(blocks[..|blocks| - 1], part) + part(blocks[|blocks| - 1])
  }

  function TextOf(b: Block): string { if b.kind.TextBlock? then b.initial + b.streamed else "" }

  function ThinkingOf(b: Block): string { if b.kind.ThinkingBlock? then b.initial + b.streamed else "" }

  /** The arguments of a tool: an input that was never streamed is the empty object. */
  function ArgumentsOf(b: Block): string { if b.streamed == "" then "{}" else b.streamed }

  function ToolsOf(blocks: seq<Block>): seq<ToolCall> {
    if blocks == [] then []
    else
      var last := blocks[|blocks| - 1];
      ToolsOf(blocks[..|blocks| - 1])
        + (if last.kind.ToolBlock? then [ToolCall(last.kind.id, last.kind.name, ArgumentsOf(last))] else [])
  }

  /** The conversion of a whole message. */
  function Converted(m: Message): Completion {
    Completion(m.id, m.model, Joined(m.blocks, TextOf), Joined(m.blocks, ThinkingOf), ToolsOf(m.blocks),
               Some(MapStopReason(m.stopReason)))
  }

  // ---------------------------------------------------------------- well-formed streams

  datatype Position = Before | Between(next: nat) | Inside(index: nat, kind: BlockKind) | Stopped | Ended

  predicate Fits(kind: BlockKind, delta: Delta) {
    match delta
    case TextDelta(_) => kind.TextBlock?
    case ThinkingDelta(_) => kind.ThinkingBlock?
    case JsonDelta(_) => kind.ToolBlock?
    case OtherDelta => true
  }

  /** Blocks come one after another, numbered from 0, each with deltas of its own kind. */
  function Advance(pos: Position, e: Event): Option<Position> {
    match (pos, e)
    case (_, Ping) => Some(pos)
    case (Before, MessageStart(_, _)) => Some(Between(0))
    case (Between(n), BlockStart(index, kind, _)) => if index == n then Some(Inside(n, kind)) else None
    case (Inside(n, kind), BlockDelta(index, delta)) => if index == n && Fits(kind, delta) then Some(pos) else None
    case (Inside(n, _), BlockStop(index)) => if index == n then Some(Between(n + 1)) else None
    case (Between(_), MessageDelta(_)) => Some(Stopped)
    case (Stopped, MessageStop) => Some(Ended)
    case _ => None
  }

  function PositionAfter(events: seq<Event>): Option<Position> {
    if events == [] then Some(Before)
    else
      match PositionAfter(events[..|events| - 1])
      case None => None
      case Some(pos) => Advance(pos, events[|events| - 1])
  }

  predicate WellFormed(events: seq<Event>) { PositionAfter(events) == Some(Ended) }

  // ---------------------------------------------------------------- the stream carries what its deltas add

  function StreamedText(b: Block): string { if b.kind.TextBlock? then b.streamed else "" }

  function StreamedThinking(b: Block): string { if b.kind.ThinkingBlock? then b.streamed else "" }

  function StreamedTools(blocks: seq<Block>): seq<ToolCall> {
    if blocks == [] then []
    else
      var last := blocks[|blocks| - 1];
      StreamedTools(blocks[..|blocks| - 1])
        + (if last.kind.ToolBlock? then [ToolCall(last.kind.id, last.kind.name, last.streamed)] else [])
  }

  /** The completion a client has built equals the message with only its streamed parts. */
  ghost predicate Carries(c: Completion, m: Message, pos: Position) {
    && c.content == Joined(m.blocks, StreamedText)
    && c.reasoning == Joined(m.blocks, StreamedThinking)
    && c.tools == StreamedTools(m.blocks)
    && (!pos.Before? ==> c.id == m.id && c.model == m.model)
    && c.finish == (if pos.Stopped? || pos.Ended? then Some(MapStopReason(m.stopReason)) else None)
  }

  ghost predicate Tracks(t: Translator, m: Message, pos: Position) {
    && !t.aborted
    && t.toolCount == |StreamedTools(m.blocks)|
    && (pos.Before? ==> m.blocks == [])
    && (!pos.Before? ==> t.id == m.id && t.model == m.model)
    && (pos.Between? ==> |m.blocks| == pos.next)
    && (pos.Inside? ==> |m.blocks| == pos.index + 1 && m.blocks[pos.index].kind == pos.kind)
    && (pos.Inside? && pos.kind.ToolBlock? ==> pos.index in t.toolIndexes && t.toolIndexes[pos.index] == t.toolCount - 1)
  }

  lemma {:induction false} EmitMerges(t: Translator, delta: ChunkDelta, finish: Option<string>)
    ensures Accumulated(Emit(t, delta, finish).out) == Merge(Accumulated(t.out), Chunk(t.id, t.model, delta, finish))
  {
    hide Merge;
    var chunk := Chunk(t.id, t.model, delta, finish);
    assert (t.out + [chunk])[..|t.out|] == t.out;
  }

  lemma {:induction false} JoinedAppend(blocks: seq<Block>, b: Block, part: Block -> string)
    ensures Joined(blocks + [b], part) == Joined(blocks, part) + part(b)
  {
    assert (blocks + [b])[..|blocks|] == blocks;
  }

  lemma {:induction false} ToolsAppend(blocks: seq<Block>, b: Block)
    ensures StreamedTools(blocks + [b]) ==
            StreamedTools(blocks) + (if b.kind.ToolBlock? then [ToolCall(b.kind.id, b.kind.name, b.streamed)] else [])
  {
    assert (blocks + [b])[..|blocks|] == blocks;
  }

  lemma {:induction false} StartCarries(t: Translator, m: Message, pos: Position, e: Event)
    requires Tracks(t, m, pos) && Carries(Accumulated(t.out), m, pos) && pos.Between? && e.BlockStart? && e.index == pos.next
    ensures var q := Inside(pos.next, e.kind);
      Tracks(Translate(t, e), Grow(m, e), q) && Carries(Accumulated(Translate(t, e).out), Grow(m, e), q)
  {
    hide Accumulated, Joined, StreamedTools;
    var b := Block(e.kind, e.initial, "");
    JoinedAppend(m.blocks, b, StreamedText);
    JoinedAppend(m.blocks, b, StreamedThinking);
    ToolsAppend(m.blocks, b);
    if e.kind.ToolBlock? {
      var t1 := t.(toolIndexes := t.toolIndexes[e.index := t.toolCount], toolCount := t.toolCount + 1);
      EmitMerges(t1, ToolStart(t.toolCount, e.kind.id, e.kind.name), None);
    }
  }

  lemma {:induction false} SplitLast(blocks: seq<Block>)
    requires blocks != []
    ensures blocks == blocks[..|blocks| - 1] + [blocks[|blocks| - 1]]
  {
  }

  lemma {:induction false} DeltaCarries(t: Translator, m: Message, pos: Position, e: Event)
    requires Tracks(t, m, pos) && Carries(Accumulated(t.out), m, pos)
    requires pos.Inside? && e.BlockDelta? && e.index == pos.index && Fits(pos.kind, e.delta)
    ensures Tracks(Translate(t, e), Grow(m, e), pos) && Carries(Accumulated(Translate(t, e).out), Grow(m, e), pos)
  {
    hide Accumulated, Joined, StreamedTools;
    if !e.delta.OtherDelta? {
      var front, b := m.blocks[..pos.index], m.blocks[pos.index];
      var grown := b.(streamed := b.streamed + e.delta.text);
      SplitLast(m.blocks);
      assert m.blocks[pos.index := grown] == front + [grown];
      JoinedAppend(front, b, StreamedText);
      JoinedAppend(front, grown, StreamedText);
      JoinedAppend(front, b, StreamedThinking);
      JoinedAppend(front, grown, StreamedThinking);
      ToolsAppend(front, b);
      ToolsAppend(front, grown);
      EmitDelta(t, e, pos);
      Associate(front, b, grown, e.delta);
    }
  }

  lemma {:induction false} EmitDelta(t: Translator, e: Event, pos: Position)
    requires pos.Inside? && e.BlockDelta? && e.index == pos.index && !e.delta.OtherDelta? && !t.aborted
    requires e.delta.JsonDelta? ==> pos.index in t.toolIndexes
    ensures var chunk := (match e.delta
                          case TextDelta(text) => Content(text)
                          case ThinkingDelta(text) => Reasoning(text)
                          case JsonDelta(text) => ToolArguments(t.toolIndexes[pos.index], text));
      Accumulated(Translate(t, e).out) == Merge(Accumulated(t.out), Chunk(t.id, t.model, chunk, None))
      && Translate(t, e) == t.(out := Translate(t, e).out)
  {
    hide Accumulated, Merge;
    match e.delta
    case TextDelta(text) => EmitMerges(t, Content(text), None);
    case ThinkingDelta(text) => EmitMerges(t, Reasoning(text), None);
    case JsonDelta(text) => EmitMerges(t, ToolArguments(t.toolIndexes[pos.index], text), None);
  }

  lemma {:induction false} Associate(front: seq<Block>, b: Block, grown: Block, delta: Delta)
    requires !delta.OtherDelta? && Fits(b.kind, delta) && grown == b.(streamed := b.streamed + delta.text)
    ensures Joined(front, StreamedText) + StreamedText(grown) ==
            Joined(front, StreamedText) + StreamedText(b) + (if delta.TextDelta? then delta.text else "")
    ensures Joined(front, StreamedThinking) + StreamedThinking(grown) ==
            Joined(front, StreamedThinking) + StreamedThinking(b) + (if delta.ThinkingDelta? then delta.text else "")
  {
    hide Joined;
    Associative(Joined(front, StreamedText), b.streamed, delta.text);
    Associative(Joined(front, StreamedThinking), b.streamed, delta.text);
  }

  lemma {:induction false} Associative(a: string, b: string, c: string)
    ensures a + (b + c) == a + b + c
  {
  }

  lemma {:induction false} OtherCarries(t: Translator, m: Message, pos: Position, e: Event)
    requires Tracks(t, m, pos) && Carries(Accumulated(t.out), m, pos) && Advance(pos, e).Some?
    requires !e.BlockStart? && !e.BlockDelta?
    ensures var q := Advance(pos, e).value;
      Tracks(Translate(t, e), Grow(m, e), q) && Carries(Accumulated(Translate(t, e).out), Grow(m, e), q)
  {
    hide Accumulated, Joined, StreamedTools;
    match e
    case MessageStart(id, model) => EmitMerges(t.(id := id, model := model), Role, None);
    case MessageDelta(reason) => EmitMerges(t, Nothing, Some(MapStopReason(reason)));
    case _ =>
  }

  lemma {:induction false} StreamCarries(events: seq<Event>, fallback: string)
    requires PositionAfter(events).Some?
    ensures var t, m, pos := Translated(events, fallback), Assembled(events), PositionAfter(events).value;
      Tracks(t, m, pos) && Carries(Accumulated(t.out), m, pos)
  {
    if events == [] {
    } else {
      var front, e := events[..|events| - 1], events[|events| - 1];
      StreamCarries(front, fallback);
      var t, m, pos := Translated(front, fallback), Assembled(front), PositionAfter(front).value;
      hide Tracks, Carries, Translate, Grow, Accumulated;
      if e.BlockStart? {
        StartCarries(t, m, pos, e);
      } else if e.BlockDelta? {
        DeltaCarries(t, m, pos, e);
      } else {
        OtherCarries(t, m, pos, e);
      }
    }
  }

  // ---------------------------------------------------------------- streaming and conversion agree

  /** Blocks of one kind start out empty. */
  ghost predicate StartEmpty(blocks: seq<Block>, kind: BlockKind) {
    forall i :: 0 <= i < |blocks| && blocks[i].kind == kind ==> blocks[i].initial == ""
  }

  /** Every tool's input was streamed. */
  ghost predicate ArgumentsStreamed(blocks: seq<Block>) {
    forall i :: 0 <= i < |blocks| && blocks[i].kind.ToolBlock? ==> blocks[i].streamed != ""
  }

  lemma {:induction false} StartEmptySplit(front: seq<Block>, last: Block, kind: BlockKind)
    ensures StartEmpty(front + [last], kind) <==> StartEmpty(front, kind) && (last.kind == kind ==> last.initial == "")
  {
    var both := front + [last];
    assert both[|front|] == last && forall i :: 0 <= i < |front| ==> both[i] == front[i];
  }

  lemma {:induction false} TextAgrees(blocks: seq<Block>)
    ensures |Joined(blocks, TextOf)| >= |Joined(blocks, StreamedText)|
    ensures StartEmpty(blocks, TextBlock) <==> |Joined(blocks, TextOf)| == |Joined(blocks, StreamedText)|
    ensures StartEmpty(blocks, TextBlock) ==> Joined(blocks, TextOf) == Joined(blocks, StreamedText)
  {
    if blocks == [] {
    } else {
      SplitLast(blocks);
      TextAgrees(blocks[..|blocks| - 1]);
      StartEmptySplit(blocks[..|blocks| - 1], blocks[|blocks| - 1], TextBlock);
      hide StartEmpty;
    }
  }

  lemma {:induction false} ThinkingAgrees(blocks: seq<Block>)
    ensures |Joined(blocks, ThinkingOf)| >= |Joined(blocks, StreamedThinking)|
    ensures StartEmpty(blocks, ThinkingBlock) <==> |Joined(blocks, ThinkingOf)| == |Joined(blocks, StreamedThinking)|
    ensures StartEmpty(blocks, ThinkingBlock) ==> Joined(blocks, ThinkingOf) == Joined(blocks, StreamedThinking)
  {
    if blocks == [] {
    } else {
      SplitLast(blocks);
      ThinkingAgrees(blocks[..|blocks| - 1]);
      StartEmptySplit(blocks[..|blocks| - 1], blocks[|blocks| - 1], ThinkingBlock);
      hide StartEmpty;
    }
  }

  lemma {:induction false} ToolsAgree(blocks: seq<Block>)
    ensures |ToolsOf(blocks)| == |StreamedTools(blocks)|
    ensures ArgumentsStreamed(blocks) <==> ToolsOf(blocks) == StreamedTools(blocks)
  {
    if blocks == [] {
    } else {
      var front, last := blocks[..|blocks| - 1], blocks[|blocks| - 1];
      ToolsAgree(front);
      assert ArgumentsStreamed(blocks) <==> ArgumentsStreamed(front) && (last.kind.ToolBlock? ==> last.streamed != "") by {
        assert forall i :: 0 <= i < |front| ==> blocks[i] == front[i];
      }
      hide ArgumentsStreamed;
      var n := |ToolsOf(front)|;
      assert ToolsOf(blocks)[..n] == ToolsOf(front) && StreamedTools(blocks)[..n] == StreamedTools(front);
      assert last.kind.ToolBlock? ==> ToolsOf(blocks)[n].arguments == ArgumentsOf(last);
      assert last.kind.ToolBlock? ==> StreamedTools(blocks)[n].arguments == last.streamed;
      EmptyObjectDiffers(last);
    }
  }

  lemma {:induction false} EmptyObjectDiffers(b: Block)
    ensures ArgumentsOf(b) == b.streamed <==> b.streamed != ""
  {
    if b.streamed == "" { assert |ArgumentsOf(b)| == 2; }
  }

  /** For every well-formed stream, accumulating the emitted chunks gives the conversion of the assembled message
      exactly when its text and thinking blocks start empty and every tool streamed its arguments. */
  lemma {:induction false} StreamAgreesWithConversion(events: seq<Event>, fallback: string)
    requires WellFormed(events)
    ensures var blocks := Assembled(events).blocks;
      Accumulated(Translated(events, fallback).out) == Converted(Assembled(events))
      <==> StartEmpty(blocks, TextBlock) && StartEmpty(blocks, ThinkingBlock) && ArgumentsStreamed(blocks)
  {
    StreamCarries(events, fallback);
    hide Accumulated, Translated, Assembled, PositionAfter, Joined, StreamedTools, ToolsOf, StartEmpty, ArgumentsStreamed;
    var blocks := Assembled(events).blocks;
    TextAgrees(blocks);
    ThinkingAgrees(blocks);
    ToolsAgree(blocks);
  }

  // ---------------------------------------------------------------- the loops

  /** The translation loop over a response body. */
  method StreamAsOpenAI(events: seq<Event>, fallback: string) returns (out: seq<Chunk>, aborted: bool)
    ensures out == Translated(events, fallback).out && aborted == Translated(events, fallback).aborted
  {
    var id, model := "", fallback;
    var toolIndexes: map<int, int> := map[];
    var toolCount := 0;
    out, aborted := [], false;
    for i := 0 to |events|
      invariant Translated(events[..i], fallback) == Translator(id, model, toolIndexes, toolCount, out, false)
      invariant !aborted
    {
      assert events[..i + 1][..i] == events[..i];
      match events[i] {
        case MessageStart(newId, newModel) =>
          id, model := newId, newModel;
          out := out + [Chunk(id, model, Role, None)];
        case BlockStart(index, kind, _) =>
          if kind.ToolBlock? {
            toolIndexes := toolIndexes[index := toolCount];
            out := out + [Chunk(id, model, ToolStart(toolCount, kind.id, kind.name), None)];
            toolCount := toolCount + 1;
          }
        case BlockDelta(index, delta) =>
          match delta {
            case TextDelta(text) => out := out + [Chunk(id, model, Content(text), None)];
            case ThinkingDelta(text) => out := out + [Chunk(id, model, Reasoning(text), None)];
            case JsonDelta(text) =>
              var tool := if index in toolIndexes then toolIndexes[index] else 0;
              out := out + [Chunk(id, model, ToolArguments(tool, text), None)];
            case OtherDelta =>
          }
        case MessageDelta(reason) =>
          out := out + [Chunk(id, model, Nothing, Some(MapStopReason(reason)))];
        case StreamError =>
          AbortEnds(events, i + 1, fallback);
          return out, true;
        case _ =>
      }
    }
    assert events[..|events|] == events;
  }

  lemma {:induction false} AbortEnds(events: seq<Event>, n: nat, fallback: string)
    requires n <= |events| && Translated(events[..n], fallback).aborted
    ensures Translated(events, fallback) == Translated(events[..n], fallback)
    decreases |events|
  {
    hide Translate;
    if n == |events| {
      assert events[..n] == events;
    } else {
      assert events[..|events| - 1][..n] == events[..n];
      AbortEnds(events[..|events| - 1], n, fallback);
      AbortedStays(Translated(events[..n], fallback), events[|events| - 1]);
    }
  }

  lemma {:induction false} AbortedStays(t: Translator, e: Event)
    requires t.aborted
    ensures Translate(t, e) == t
  {
  }

  /** The conversion loop over a whole message. */
  method Convert(m: Message) returns (c: Completion)
    ensures c == Converted(m)
  {
    var content, reasoning := "", "";
    var tools: seq<ToolCall> := [];
    for i := 0 to |m.blocks|
      invariant content == Joined(m.blocks[..i], TextOf) && reasoning == Joined(m.blocks[..i], ThinkingOf)
      invariant tools == ToolsOf(m.blocks[..i])
    {
      assert m.blocks[..i + 1][..i] == m.blocks[..i];
      var b := m.blocks[i];
      match b.kind {
        case TextBlock => content := content + (b.initial + b.streamed);
        case ThinkingBlock => reasoning := reasoning + (b.initial + b.streamed);
        case ToolBlock(id, name) => tools := tools + [ToolCall(id, name, ArgumentsOf(b))];
        case OtherBlock =>
      }
    }
    assert m.blocks[..|m.blocks|] == m.blocks;
    c := Completion(m.id, m.model, content, reasoning, tools, Some(MapStopReason(m.stopReason)));
  }
}
