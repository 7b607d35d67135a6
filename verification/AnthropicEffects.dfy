/** What `AnthropicStream` says on particular streams: the names of stop reasons, the order of what is joined, and what a
    client reads of text, of a tool call and of a broken stream. */
module AnthropicEffects {
  import opened Wrappers
  import opened AnthropicStream

  /** Reaching the token limit is a length stop, asking for a tool is a tool stop, ending the turn or meeting a stop sequence
      is a plain stop, and any other reason is passed on. */
  lemma {:induction false} StopReasonsAreNamed(reason: string)
    ensures MapStopReason("max_tokens") == "length" && MapStopReason("tool_use") == "tool_calls"
    ensures MapStopReason("end_turn") == MapStopReason("stop_sequence") == "stop"
    ensures reason !in {"max_tokens", "tool_use", "end_turn", "stop_sequence"} ==> MapStopReason(reason) == reason
  {
    assert "max_tokens"[0] == 'm' && "tool_use"[0] == 't' && "end_turn"[0] == 'e' && "stop_sequence"[0] == 's';
  }

  /** Parts are joined from the first block to the last. */
  lemma {:induction false} JoinedFromTheFront(blocks: seq<Block>, part: Block -> string)
    requires blocks != []
    ensures Joined(blocks, part) == part(blocks[0]) + Joined(blocks[1..], part)
  {
    var front, last := blocks[..|blocks| - 1], blocks[|blocks| - 1];
    if front == [] {
      assert blocks[1..] == [] && Joined(front, part) == "";
    } else {
      JoinedFromTheFront(front, part);
      assert front[1..] == blocks[1..][..|blocks| - 2] && front[0] == blocks[0];
      assert Joined(blocks, part) == (part(front[0]) + Joined(front[1..], part)) + part(last);
    }
  }

  lemma {:induction false} ToolsFromTheFront(blocks: seq<Block>)
    requires blocks != [] && blocks[0].kind.ToolBlock?
    ensures ToolsOf(blocks) == [ToolCall(blocks[0].kind.id, blocks[0].kind.name, ArgumentsOf(blocks[0]))] + ToolsOf(blocks[1..])
  {
    var front, last := blocks[..|blocks| - 1], blocks[|blocks| - 1];
    if front == [] {
      assert blocks[1..] == [] && ToolsOf(front) == [];
    } else {
      ToolsFromTheFront(front);
      assert front[1..] == blocks[1..][..|blocks| - 2] && front[0] == blocks[0];
    }
  }

  function Client(events: seq<Event>): Completion { Accumulated(Translated(events, "").out) }

  /** One event more. */
  lemma {:induction false} OneMoreTranslated(front: seq<Event>, e: Event, fallback: string)
    ensures Translated(front + [e], fallback) == Translate(Translated(front, fallback), e)
  {
    assert (front + [e])[..|front|] == front;
  }

  /** A text block streamed in two parts is read as the two parts in order, in the message's name, with its stop reason. */
  lemma {:induction false} TextIsRead(id: string, model: string, a: string, b: string, reason: string)
    ensures Client([MessageStart(id, model), BlockStart(0, TextBlock, ""), BlockDelta(0, TextDelta(a)),
                    BlockDelta(0, TextDelta(b)), BlockStop(0), MessageDelta(reason), MessageStop]) ==
            Completion(id, model, a + b, "", [], Some(MapStopReason(reason)))
  {
    hide MapStopReason, Accumulated;
    var t1 := Translate(Translated([], ""), MessageStart(id, model));
    var t2 := Translate(t1, BlockStart(0, TextBlock, ""));
    var t3 := Translate(t2, BlockDelta(0, TextDelta(a)));
    var t4 := Translate(t3, BlockDelta(0, TextDelta(b)));
    var t6 := Translate(Translate(t4, BlockStop(0)), MessageDelta(reason));
    NothingHeard();
    EmitMerges(Translated([], "").(id := id, model := model), Role, None);
    EmitMerges(t2, Content(a), None);
    EmitMerges(t3, Content(b), None);
    EmitMerges(t4, Nothing, Some(MapStopReason(reason)));
    Seven(MessageStart(id, model), BlockStart(0, TextBlock, ""), BlockDelta(0, TextDelta(a)), BlockDelta(0, TextDelta(b)),
          BlockStop(0), MessageDelta(reason), MessageStop);
    assert "" + a == a;
  }

  lemma {:induction false} NothingHeard()
    ensures Translated([], "") == Translator("", "", map[], 0, [], false)
    ensures Accumulated(Translated([], "").out) == Completion("", "", "", "", [], None)
  {
  }

  lemma {:induction false} Four(a: Event, b: Event, c: Event, d: Event)
    ensures Translated([a, b, c, d], "") == Translate(Translate(Translate(Translate(Translated([], ""), a), b), c), d)
  {
    hide Translate;
    OneMoreTranslated([], a, "");
    OneMoreTranslated([a], b, "");
    OneMoreTranslated([a, b], c, "");
    OneMoreTranslated([a, b, c], d, "");
    assert [] + [a] == [a] && [a] + [b] == [a, b] && [a, b] + [c] == [a, b, c] && [a, b, c] + [d] == [a, b, c, d];
  }

  lemma {:induction false} Seven(a: Event, b: Event, c: Event, d: Event, e: Event, f: Event, g: Event)
    ensures Translated([a, b, c, d, e, f, g], "") ==
      Translate(Translate(Translate(Translate(Translate(Translate(Translate(Translated([], ""), a), b), c), d), e), f), g)
  {
    hide Translate, Translated;
    Four(a, b, c, d);
    OneMoreTranslated([a, b, c, d], e, "");
    OneMoreTranslated([a, b, c, d, e], f, "");
    OneMoreTranslated([a, b, c, d, e, f], g, "");
    assert [a, b, c, d] + [e] == [a, b, c, d, e] && [a, b, c, d, e] + [f] == [a, b, c, d, e, f];
    assert [a, b, c, d, e, f] + [g] == [a, b, c, d, e, f, g];
  }

  /** A tool call is read with its id, its name and its arguments put together. */
  lemma {:induction false} ToolCallIsRead(id: string, model: string, tool: string, name: string, a: string, b: string)
    ensures Client([MessageStart(id, model), BlockStart(0, ToolBlock(tool, name), ""), BlockDelta(0, JsonDelta(a)),
                    BlockDelta(0, JsonDelta(b)), BlockStop(0), MessageDelta("tool_use"), MessageStop]) ==
            Completion(id, model, "", "", [ToolCall(tool, name, a + b)], Some("tool_calls"))
  {
    StopReasonsAreNamed("");
    hide MapStopReason, Accumulated;
    var t1 := Translate(Translated([], ""), MessageStart(id, model));
    var t2 := Translate(t1, BlockStart(0, ToolBlock(tool, name), ""));
    var t3 := Translate(t2, BlockDelta(0, JsonDelta(a)));
    var t4 := Translate(t3, BlockDelta(0, JsonDelta(b)));
    NothingHeard();
    EmitMerges(Translated([], "").(id := id, model := model), Role, None);
    EmitMerges(t1.(toolIndexes := map[0 := 0], toolCount := 1), ToolStart(0, tool, name), None);
    EmitMerges(t2, ToolArguments(0, a), None);
    EmitMerges(t3, ToolArguments(0, b), None);
    EmitMerges(t4, Nothing, Some(MapStopReason("tool_use")));
    Seven(MessageStart(id, model), BlockStart(0, ToolBlock(tool, name), ""), BlockDelta(0, JsonDelta(a)),
          BlockDelta(0, JsonDelta(b)), BlockStop(0), MessageDelta("tool_use"), MessageStop);
    assert "" + a == a;
  }

  /** Nothing that follows an error event is translated. */
  lemma {:induction false} NothingAfterAnError(before: seq<Event>, after: seq<Event>)
    ensures Translated(before + [StreamError] + after, "").out == Translated(before, "").out
    ensures Translated(before + [StreamError] + after, "").aborted
  {
    if after == [] {
      assert before + [StreamError] + after == before + [StreamError];
      OneMoreTranslated(before, StreamError, "");
    } else {
      var front, last := after[..|after| - 1], after[|after| - 1];
      NothingAfterAnError(before, front);
      assert before + [StreamError] + after == (before + [StreamError] + front) + [last];
      OneMoreTranslated(before + [StreamError] + front, last, "");
    }
  }

  /** A whole message is read with its text, its reasoning and its tools apart; a tool without input gets an empty object. */
  lemma {:induction false} MessageIsRead(
    id: string, model: string, a: string, b: string, c: string, d: string, tool: string, name: string, e: string, f: string)
    ensures Converted(Message(id, model, [Block(ThinkingBlock, a, b), Block(TextBlock, c, d), Block(ToolBlock(tool, name), e, f)],
                              "end_turn")) ==
            Completion(id, model, c + d, a + b, [ToolCall(tool, name, if f == "" then "{}" else f)], Some("stop"))
  {
    StopReasonsAreNamed("");
    hide MapStopReason;
    var x, y, z := Block(ThinkingBlock, a, b), Block(TextBlock, c, d), Block(ToolBlock(tool, name), e, f);
    assert [x, y, z][..2] == [x, y] && [x, y][..1] == [x] && [x][..0] == [];
    assert "" + (c + d) == c + d && "" + (a + b) == a + b;
    assert Joined([], TextOf) == "" && Joined([], ThinkingOf) == "" && ToolsOf([]) == [];
    assert Joined([x], TextOf) == Joined([x][..0], TextOf) + "" == "";
    assert Joined([x], ThinkingOf) == Joined([x][..0], ThinkingOf) + (a + b) == a + b;
    assert ToolsOf([x]) == [];
    assert Joined([x, y], TextOf) == c + d && Joined([x, y], ThinkingOf) == a + b && ToolsOf([x, y]) == [];
    assert (c + d) + "" == c + d && (a + b) + "" == a + b;
  }

  // ---------------------------------------------------------------- which streams are well-formed

  lemma {:induction false} OneMoreEvent(front: seq<Event>, e: Event)
    ensures PositionAfter(front + [e]) == match PositionAfter(front) case None => None case Some(pos) => Advance(pos, e)
  {
    assert (front + [e])[..|front|] == front;
  }

  /** A ping is allowed anywhere and changes neither the place in the stream nor what is sent on. */
  lemma {:induction false} PingsDoNotMatter(a: seq<Event>, b: seq<Event>, fallback: string)
    ensures PositionAfter(a + [Ping] + b) == PositionAfter(a + b)
    ensures Translated(a + [Ping] + b, fallback) == Translated(a + b, fallback)
    decreases |b|
  {
    hide PositionAfter, Translated;
    if b == [] {
      OneMoreEvent(a, Ping);
      OneMoreTranslated(a, Ping, fallback);
      assert a + [Ping] + b == a + [Ping] && a + b == a;
    } else {
      hide Advance, Translate;
      var front, last := b[..|b| - 1], b[|b| - 1];
      PingsDoNotMatter(a, front, fallback);
      OneMoreEvent(a + [Ping] + front, last);
      OneMoreTranslated(a + [Ping] + front, last, fallback);
      OneMoreEvent(a + front, last);
      OneMoreTranslated(a + front, last, fallback);
      assert b == front + [last];
      assert a + [Ping] + (front + [last]) == (a + [Ping] + front) + [last];
      assert a + (front + [last]) == (a + front) + [last];
    }
  }

  /** A block as it is streamed: what it starts with, and the deltas that follow. */
  datatype Part = Part(kind: BlockKind, initial: string, deltas: seq<Delta>)

  /** Each delta is of the block's own kind, or of one nobody translates. */
  predicate Suited(part: Part) {
    forall d :: d in part.deltas ==>
      d.OtherDelta? || (d.TextDelta? && part.kind.TextBlock?) || (d.ThinkingDelta? && part.kind.ThinkingBlock?)
      || (d.JsonDelta? && part.kind.ToolBlock?)
  }

  function DeltaEvents(n: nat, deltas: seq<Delta>): seq<Event> {
    if deltas == [] then [] else DeltaEvents(n, deltas[..|deltas| - 1]) + [BlockDelta(n, deltas[|deltas| - 1])]
  }

  function BlockEvents(n: nat, part: Part): seq<Event> {
    [BlockStart(n, part.kind, part.initial)] + DeltaEvents(n, part.deltas) + [BlockStop(n)]
  }

  function PartEvents(parts: seq<Part>): seq<Event> {
    if parts == [] then [] else PartEvents(parts[..|parts| - 1]) + BlockEvents(|parts| - 1, parts[|parts| - 1])
  }

  lemma {:induction false} DeltasStay(front: seq<Event>, n: nat, kind: BlockKind, deltas: seq<Delta>)
    requires PositionAfter(front) == Some(Inside(n, kind))
    ensures PositionAfter(front + DeltaEvents(n, deltas)) == if Suited(Part(kind, "", deltas)) then Some(Inside(n, kind)) else None
  {
    if deltas == [] {
      assert front + DeltaEvents(n, deltas) == front;
    } else {
      var before, last := deltas[..|deltas| - 1], deltas[|deltas| - 1];
      DeltasStay(front, n, kind, before);
      OneMoreEvent(front + DeltaEvents(n, before), BlockDelta(n, last));
      assert front + DeltaEvents(n, deltas) == (front + DeltaEvents(n, before)) + [BlockDelta(n, last)];
      assert deltas == before + [last];
    }
  }

  lemma {:induction false} PartFollows(front: seq<Event>, n: nat, part: Part)
    requires PositionAfter(front) in {Some(Between(n)), None}
    ensures PositionAfter(front + BlockEvents(n, part)) ==
      if PositionAfter(front).Some? && Suited(part) then Some(Between(n + 1)) else None
  {
    var b := front + [BlockStart(n, part.kind, part.initial)];
    OneMoreEvent(front, BlockStart(n, part.kind, part.initial));
    OneMoreEvent(b + DeltaEvents(n, part.deltas), BlockStop(n));
    SuitedByDeltas(part);
    assert front + BlockEvents(n, part) == b + DeltaEvents(n, part.deltas) + [BlockStop(n)];
    hide Suited, PositionAfter, DeltaEvents;
    if PositionAfter(front).Some? { DeltasStay(b, n, part.kind, part.deltas); } else { StaysNone(b, n, part.deltas); }
  }

  lemma {:induction false} PartsFollow(front: seq<Event>, parts: seq<Part>)
    requires PositionAfter(front) == Some(Between(0))
    ensures PositionAfter(front + PartEvents(parts)) ==
      if forall p :: p in parts ==> Suited(p) then Some(Between(|parts|)) else None
  {
    hide Suited, PositionAfter, BlockEvents;
    if parts == [] {
      assert front + PartEvents(parts) == front;
    } else {
      var n, last, before := |parts| - 1, parts[|parts| - 1], parts[..|parts| - 1];
      PartsFollow(front, before);
      PartFollows(front + PartEvents(before), n, last);
      assert parts == before + [last];
      assert front + PartEvents(parts) == front + PartEvents(before) + BlockEvents(n, last);
    }
  }

  lemma {:induction false} SuitedByDeltas(part: Part)
    ensures Suited(part) <==> Suited(Part(part.kind, "", part.deltas))
  {
  }

  lemma {:induction false} StaysNone(front: seq<Event>, n: nat, deltas: seq<Delta>)
    requires PositionAfter(front) == None
    ensures PositionAfter(front + DeltaEvents(n, deltas)) == None
  {
    if deltas == [] {
      assert front + DeltaEvents(n, deltas) == front;
    } else {
      var before, last := deltas[..|deltas| - 1], deltas[|deltas| - 1];
      StaysNone(front, n, before);
      OneMoreEvent(front + DeltaEvents(n, before), BlockDelta(n, last));
      assert front + DeltaEvents(n, deltas) == (front + DeltaEvents(n, before)) + [BlockDelta(n, last)];
    }
  }

  /** A message streamed block by block is well-formed exactly when every delta suits its block. */
  lemma {:induction false} StreamedMessageIsWellFormed(id: string, model: string, parts: seq<Part>, reason: string)
    ensures WellFormed([MessageStart(id, model)] + PartEvents(parts) + [MessageDelta(reason)] + [MessageStop]) <==>
      forall p :: p in parts ==> Suited(p)
  {
    var start := [MessageStart(id, model)];
    assert start[..0] == [] && PositionAfter([]) == Some(Before);
    PartsFollow(start, parts);
    OneMoreEvent(start + PartEvents(parts), MessageDelta(reason));
    OneMoreEvent(start + PartEvents(parts) + [MessageDelta(reason)], MessageStop);
    hide Suited, PartEvents, PositionAfter;
  }
}
