/** What the assembled message says, read off the events themselves: which blocks
    it lists, and under every key what was started, summed up or decoded. */
module MessageLaws {
  import opened Common
  import opened ContentBlocks
  import opened ContentLaws

  // ---- what the events say ----------------------------------------------------

  function At(fields: Fields, key: string): Option<Json> {
    if key in fields then Some(fields[key]) else None
  }

  /** A value as text: a string's own, what `str` gives of another, and nothing
      for a key that is not there. */
  function TextOf(v: Option<Json>): string {
    match v
    case None => ""
    case Some(Str(text)) => text
    case Some(Obj(_, shown)) => shown
    case Some(Other(shown)) => shown
  }

  /** The event starts block `i`: with its object, or an empty one when its data
      has none. */
  function Started(e: Event, i: int): Option<Fields> {
    if e.name != "content_block_start" || e.index != Some(i) then None
    else
      match At(e.data, "content_block")
      case None => Some(map[])
      case Some(Obj(fields, _)) => Some(fields)
      case Some(_) => None
  }

  /** The text a delta of this type brings to block `i`, under `source`. */
  function Brought(e: Event, i: int, deltaType: string, source: string): Option<string> {
    if e.name != "content_block_delta" || e.index != Some(i) then None
    else
      match At(e.data, "delta")
      case Some(Obj(delta, _)) =>
        if At(delta, "type") == Some(Str(deltaType)) then Some(TextOf(At(delta, source))) else None
      case _ => None
  }

  /** What such deltas add up to since block `i` last started. */
  function Sum(events: seq<Event>, i: int, deltaType: string, source: string): Option<string> {
    if events == [] then None
    else
      var last, before := events[|events| - 1], events[..|events| - 1];
      if Started(last, i).Some? then None
      else
        match Brought(last, i, deltaType, source)
        case None => Sum(before, i, deltaType, source)
        case Some(text) =>
          match Sum(before, i, deltaType, source)
          case None => Some(text)
          case Some(sum) => Some(sum + text)
  }

  /** What block `i` last started with. */
  function LastStart(events: seq<Event>, i: int): Option<Fields> {
    if events == [] then None
    else
      var last := events[|events| - 1];
      if Started(last, i).Some? then Started(last, i) else LastStart(events[..|events| - 1], i)
  }

  /** The indices of the blocks, in the order of their starts. */
  function Order(events: seq<Event>): seq<int> {
    if events == [] then []
    else
      var last, before := events[|events| - 1], events[..|events| - 1];
      if last.index.Some? && Started(last, last.index.value).Some? then Order(before) + [last.index.value]
      else Order(before)
  }

  /** An event of a block that names none. */
  predicate NamesNoBlock(e: Event) {
    (e.name == "content_block_start" || e.name == "content_block_delta") && e.index.None?
  }

  /** A key that deltas add to: what it started with as text, then their sum. */
  function SummedUp(start: Fields, key: string, sum: Option<string>): Option<Json> {
    match sum
    case None => At(start, key)
    case Some(text) => Some(Str(TextOf(At(start, key)) + text))
  }

  /** The JSON a tool call collected. */
  function Collected(events: seq<Event>, i: int, start: Fields): string {
    TextOf(SummedUp(start, "_partial_json", Sum(events, i, "input_json_delta", "partial_json")))
  }

  /** What a message is to hold under `key` for block `i`, which last started
      with `start`. */
  function Meant(events: seq<Event>, i: int, start: Fields, key: string, loads: string -> Option<Json>): Option<Json> {
    var isTool := At(start, "type") == Some(Str("tool_use"));
    var json := Collected(events, i, start);
    if key == "text" then SummedUp(start, key, Sum(events, i, "text_delta", "text"))
    else if key == "thinking" then SummedUp(start, key, Sum(events, i, "thinking_delta", "thinking"))
    else if key == "_partial_json" then
      if isTool then None else SummedUp(start, key, Sum(events, i, "input_json_delta", "partial_json"))
    else if key == "input" && isTool && json != "" then
      match loads(json)
      case Some(value) => Some(value)
      case None => Some(Obj(map[], "{}"))
    else At(start, key)
  }

  // ---- an event and its piece -------------------------------------------------

  lemma PieceStarts(e: Event, i: int)
    ensures Started(e, i) == if PieceOf(e).Start? && PieceOf(e).index == i then Some(PieceOf(e).block) else None
  {
  }

  lemma PieceBrings(e: Event, i: int)
    ensures var p := PieceOf(e);
            var text := if p.Delta? && p.index == i then Some(p.text) else None;
            && Brought(e, i, "text_delta", "text") == (if p.Delta? && p.channel.Text? then text else None)
            && Brought(e, i, "thinking_delta", "thinking") == (if p.Delta? && p.channel.Thinking? then text else None)
            && Brought(e, i, "input_json_delta", "partial_json")
               == (if p.Delta? && p.channel.PartialJson? then text else None)
  {
  }

  lemma PiecesGrow(events: seq<Event>)
    requires events != []
    ensures PiecesOf(events) == PiecesOf(events[..|events| - 1]) + [PieceOf(events[|events| - 1])]
  {
  }

  function TypeOf(c: Channel): string {
    match c
    case Text => "text_delta"
    case Thinking => "thinking_delta"
    case PartialJson => "input_json_delta"
  }

  function SourceOf(c: Channel): string {
    match c
    case Text => "text"
    case Thinking => "thinking"
    case PartialJson => "partial_json"
  }

  lemma {:induction false} SumIsSince(events: seq<Event>, i: int, c: Channel)
    ensures Sum(events, i, TypeOf(c), SourceOf(c)) == Since(PiecesOf(events), i, c)
  {
    hide PieceOf, Brought, Started;
    if events != [] {
      var before, last := events[..|events| - 1], events[|events| - 1];
      SumIsSince(before, i, c);
      PiecesGrow(events);
      SinceGrows(PiecesOf(before), PieceOf(last), i, c);
      PieceStarts(last, i);
      PieceBrings(last, i);
      match Sum(before, i, TypeOf(c), SourceOf(c))
      case None => assert forall text: string :: "" + text == text;
      case Some(_) =>
    }
  }

  lemma {:induction false} LastStartIsLast(events: seq<Event>, i: int)
    ensures LastStart(events, i) == LastOf(Starts(PiecesOf(events)), i)
  {
    hide PieceOf, Started, Starts, LastOf;
    if events == [] {
      NothingStarts(i);
    } else {
      var before, last := events[..|events| - 1], events[|events| - 1];
      LastStartIsLast(before, i);
      PiecesGrow(events);
      StartsGrow(PiecesOf(before), PieceOf(last), i);
      PieceStarts(last, i);
    }
  }

  lemma NothingStarts(i: int)
    ensures Starts([]) == [] && LastOf([], i) == None
  {
  }

  lemma {:induction false} OrderIsOfStarts(events: seq<Event>)
    ensures var starts := Starts(PiecesOf(events));
            |Order(events)| == |starts| && forall k :: 0 <= k < |starts| ==> Order(events)[k] == starts[k].0
  {
    hide PieceOf, Started, Starts;
    if events == [] {
      NothingStarts(0);
    } else {
      var before, last := events[..|events| - 1], events[|events| - 1];
      OrderIsOfStarts(before);
      PiecesGrow(events);
      StartsGrow(PiecesOf(before), PieceOf(last), 0);
      StartIsOfItsIndex(last);
      if last.index.Some? {
        PieceStarts(last, last.index.value);
      }
    }
  }

  lemma StartIsOfItsIndex(e: Event)
    ensures PieceOf(e).Start? ==> e.index == Some(PieceOf(e).index)
    ensures PieceOf(e).Broken? <==> NamesNoBlock(e)
  {
  }

  // ---- a block and its keys ---------------------------------------------------

  lemma KeysOfWith(block: Fields, c: Channel, text: Option<string>, key: string)
    ensures At(With(block, c, text), key)
            == if key == c.Key() && text.Some? then Some(Str(TextOf(At(block, key)) + text.value)) else At(block, key)
  {
  }

  lemma KeysOfMerged(block: Fields, text: Option<string>, thinking: Option<string>, json: Option<string>, key: string)
    ensures At(Merged(block, text, thinking, json), key)
            == if key == "text" then SummedUp(block, key, text)
               else if key == "thinking" then SummedUp(block, key, thinking)
               else if key == "_partial_json" then SummedUp(block, key, json)
               else At(block, key)
  {
    hide With, At;
    KeysDiffer();
    KeysOfWith(block, Text, text, key);
    KeysOfWith(With(block, Text, text), Thinking, thinking, key);
    KeysOfWith(With(With(block, Text, text), Thinking, thinking), PartialJson, json, key);
  }

  lemma KeysDiffer()
    ensures "text" != "thinking" && "text" != "_partial_json" && "thinking" != "_partial_json"
    ensures "input" !in ["text", "thinking", "_partial_json"] && "type" !in ["text", "thinking", "_partial_json"]
  {
    assert "text"[0] == 't' && "thinking"[1] == 'h' && "_partial_json"[0] == '_' && "input"[0] == 'i';
    assert "text"[1] == 'e' && "type"[1] == 'y';
  }

  lemma KeysOfFinished(block: Fields, loads: string -> Option<Json>, key: string)
    ensures var isTool := At(block, "type") == Some(Str("tool_use"));
            var json := TextOf(At(block, "_partial_json"));
            At(Finished(block, loads), key)
            == if isTool && key == "_partial_json" then None
               else if isTool && key == "input" && json != "" then
                 Some(if loads(json).Some? then loads(json).value else Obj(map[], "{}"))
               else At(block, key)
  {
    KeysDiffer();
  }

  lemma ReadsAsMeant(events: seq<Event>, i: int, start: Fields, key: string, loads: string -> Option<Json>)
    ensures At(Finished(Reads(PiecesOf(events), i, start), loads), key) == Meant(events, i, start, key, loads)
  {
    hide Finished, Merged, At, Since, Sum;
    var block := Reads(PiecesOf(events), i, start);
    var text, thinking := Sum(events, i, "text_delta", "text"), Sum(events, i, "thinking_delta", "thinking");
    var json := Sum(events, i, "input_json_delta", "partial_json");
    SumIsSince(events, i, Text);
    SumIsSince(events, i, Thinking);
    SumIsSince(events, i, PartialJson);
    KeysDiffer();
    KeysOfMerged(start, text, thinking, json, key);
    KeysOfMerged(start, text, thinking, json, "type");
    KeysOfMerged(start, text, thinking, json, "_partial_json");
    KeysOfFinished(block, loads, key);
  }

  /** The message lists one block for each start, in order; and each block holds,
      under every key, just what the events mean: what it last started with; its
      texts summed up; and for a tool call no collected JSON but, as its input, the
      value that JSON decodes to, an empty object when it decodes to none, and what
      it started with when none was collected. */
  lemma MessageIsMeant(events: seq<Event>, loads: string -> Option<Json>)
    ensures var content := Content(PiecesOf(events), loads);
            && |content| == |Order(events)|
            && forall k :: 0 <= k < |content| ==>
                 var i := Order(events)[k];
                 && LastStart(events, i).Some?
                 && forall key ::
                      At(content[k], key) == Meant(events, i, LastStart(events, i).value, key, loads)
  {
    hide Built, Finished, Starts, LastOf, Reads, Meant, At, Order, LastStart;
    var pieces := PiecesOf(events);
    var content := Content(pieces, loads);
    BuiltIsSaid(pieces);
    OrderIsOfStarts(events);
    forall k | 0 <= k < |content|
      ensures LastStart(events, Order(events)[k]).Some?
      ensures forall key ::
                At(content[k], key)
                == Meant(events, Order(events)[k], LastStart(events, Order(events)[k]).value, key, loads)
    {
      var i := Order(events)[k];
      LastStartIsLast(events, i);
      assert i == Built(pieces).order[k];
      forall key
        ensures At(content[k], key) == Meant(events, i, LastStart(events, i).value, key, loads)
      {
        ReadsAsMeant(events, i, LastStart(events, i).value, key, loads);
      }
    }
  }

  /** Assembling fails exactly when an event of a block names none. */
  lemma FailsExactlyWhen(events: seq<Event>)
    ensures Broken in PiecesOf(events) <==> exists e :: e in events && NamesNoBlock(e)
  {
    hide PieceOf, NamesNoBlock;
    forall k | 0 <= k < |events|
      ensures PiecesOf(events)[k].Broken? <==> NamesNoBlock(events[k])
    {
      StartIsOfItsIndex(events[k]);
    }
    if Broken in PiecesOf(events) {
      var k :| 0 <= k < |events| && PiecesOf(events)[k] == Broken;
      assert events[k] in events;
    }
    if e :| e in events && NamesNoBlock(e) {
      var k :| 0 <= k < |events| && events[k] == e;
      assert PiecesOf(events)[k] in PiecesOf(events);
    }
  }
}
