/** Putting a streamed assistant message back together: content blocks start,
    grow by deltas, and are listed in the order they started. */
module ContentBlocks {
  import opened Common

  /** A decoded JSON value; what is not a string carries the text `str` gives. */
  datatype Json =
    | Str(text: string)
    | Obj(fields: map<string, Json>, shown: string)
    | Other(shown: string)

  function Shown(v: Json): string {
    if v.Str? then v.text else v.shown
  }

  type Fields = map<string, Json>

  const NO_OBJECT: Json := Obj(map[], "{}")

  function Get(fields: Fields, key: string, default: Json): Json {
    if key in fields then fields[key] else default
  }

  /** A server-sent event; `index` is the integer its data names, if one. */
  datatype Event = Event(name: string, index: Option<int>, data: Fields)

  /** The three channels a delta can add to. */
  datatype Channel = Text | Thinking | PartialJson
  {
    /** Where the block keeps it. */
    function Key(): string {
      match this
      case Text => "text"
      case Thinking => "thinking"
      case PartialJson => "_partial_json"
    }

    /** Where the delta brings it. */
    function Source(): string {
      match this
      case Text => "text"
      case Thinking => "thinking"
      case PartialJson => "partial_json"
    }
  }

  function ChannelOf(deltaType: Json): Option<Channel> {
    if deltaType == Str("text_delta") then Some(Text)
    else if deltaType == Str("thinking_delta") then Some(Thinking)
    else if deltaType == Str("input_json_delta") then Some(PartialJson)
    else None
  }

  /** What one event asks for: to start a block, to add to one, nothing, or --
      when it names no index -- to fail. */
  datatype Piece =
    | Start(index: int, block: Fields)
    | Delta(index: int, channel: Channel, text: string)
    | Nothing
    | Broken

  function PieceOf(e: Event): Piece {
    if e.name == "content_block_start" then
      var block := Get(e.data, "content_block", NO_OBJECT);
      if e.index.None? then Broken
      else if block.Obj? then Start(e.index.value, block.fields)
      else Nothing
    else if e.name == "content_block_delta" then
      var delta := Get(e.data, "delta", NO_OBJECT);
      if e.index.None? then Broken
      else if !delta.Obj? then Nothing
      else
        var channel := ChannelOf(Get(delta.fields, "type", Other("None")));
        if channel.None? then Nothing
        else Delta(e.index.value, channel.value, Shown(Get(delta.fields, channel.value.Source(), Str(""))))
    else Nothing
  }

  function PiecesOf(events: seq<Event>): (pieces: seq<Piece>)
    ensures |pieces| == |events| && forall i :: 0 <= i < |events| ==> pieces[i] == PieceOf(events[i])
  {
    seq(|events|, i requires 0 <= i < |events| => PieceOf(events[i]))
  }

  // ---- what is built ------------------------------------------------------------------

  function Added(block: Fields, channel: Channel, text: string): Fields {
    block[channel.Key() := Str(Shown(Get(block, channel.Key(), Str(""))) + text)]
  }

  datatype Draft = Draft(blocks: map<int, Fields>, order: seq<int>)

  function Extended(d: Draft, p: Piece): Draft {
    match p
    case Start(i, block) => Draft(d.blocks[i := block], d.order + [i])
    case Delta(i, channel, text) =>
      if i in d.blocks then d.(blocks := d.blocks[i := Added(d.blocks[i], channel, text)]) else d
    case _ => d
  }

  function Built(pieces: seq<Piece>): Draft {
    if pieces == [] then Draft(map[], [])
    else Extended(Built(pieces[..|pieces| - 1]), pieces[|pieces| - 1])
  }

  /** A tool call's collected JSON becomes its input, or an empty object. */
  function Finished(block: Fields, loads: string -> Option<Json>): Fields {
    if Get(block, "type", Other("None")) != Str("tool_use") then block
    else
      var partial := Shown(Get(block, "_partial_json", Str("")));
      var rest := block - {"_partial_json"};
      if partial == "" then rest
      else rest["input" := if loads(partial).Some? then loads(partial).value else NO_OBJECT]
  }

  ghost predicate OrderIsBuilt(d: Draft) {
    forall k :: 0 <= k < |d.order| ==> d.order[k] in d.blocks
  }

  lemma {:induction false} BuiltHasItsOrder(pieces: seq<Piece>)
    ensures OrderIsBuilt(Built(pieces))
  {
    if pieces != [] {
      var before := Built(pieces[..|pieces| - 1]);
      BuiltHasItsOrder(pieces[..|pieces| - 1]);
      assert forall k :: 0 <= k < |before.order| ==> before.order[k] in before.blocks;
    }
  }

  /** Every start in order, with the block its index ends up with. */
  function Listed(d: Draft, loads: string -> Option<Json>): (content: seq<Fields>)
    requires OrderIsBuilt(d)
    ensures |content| == |d.order|
    ensures forall k :: 0 <= k < |d.order| ==>
              d.order[k] in d.blocks && content[k] == Finished(d.blocks[d.order[k]], loads)
  {
    seq(|d.order|, k requires 0 <= k < |d.order| => Finished(d.blocks[d.order[k]], loads))
  }

  /** The message a series of pieces makes. */
  function Content(pieces: seq<Piece>, loads: string -> Option<Json>): seq<Fields> {
    BuiltHasItsOrder(pieces);
    Listed(Built(pieces), loads)
  }

  /** Finishing a block twice, as a listed-twice block is, is finishing it once. */
  lemma FinishedOnce(block: Fields, loads: string -> Option<Json>)
    ensures Finished(Finished(block, loads), loads) == Finished(block, loads)
  {
    var f := Finished(block, loads);
    assert f - {"_partial_json"} == f || f == block;
  }

  // ---- the algorithm -----------------------------------------------------------------------

  /** One block, updated in place. */
  class Block {
    var fields: Fields

    constructor (fields: Fields)
      ensures this.fields == fields
    {
      this.fields := fields;
    }

    method Add(channel: Channel, text: string)
      modifies this
      ensures fields == Added(old(fields), channel, text)
    {
      fields := fields[channel.Key() := Str(Shown(Get(fields, channel.Key(), Str(""))) + text)];
    }

    method Finish(loads: string -> Option<Json>)
      modifies this
      ensures fields == Finished(old(fields), loads)
    {
      if Get(fields, "type", Other("None")) == Str("tool_use") {
        var partial := Shown(Get(fields, "_partial_json", Str("")));
        fields := fields - {"_partial_json"};
        if partial != "" {
          var value := loads(partial);
          fields := fields["input" := if value.Some? then value.value else NO_OBJECT];
        }
      }
    }
  }

  /** The objects hold these blocks, one object for each index. */
  ghost predicate Holds(objects: map<int, Block>, blocks: map<int, Fields>)
    reads set i | i in objects :: objects[i]
  {
    && objects.Keys == blocks.Keys
    && (forall i :: i in objects ==> objects[i].fields == blocks[i])
    && (forall i, j :: i in objects && j in objects && i != j ==> objects[i] != objects[j])
  }

  /** Take one event's piece in. */
  method Take(objects: map<int, Block>, order: seq<int>, piece: Piece, ghost d: Draft)
    returns (nextObjects: map<int, Block>, nextOrder: seq<int>)
    requires Holds(objects, d.blocks) && order == d.order
    modifies set i | i in objects :: objects[i]
    ensures Holds(nextObjects, Extended(d, piece).blocks) && nextOrder == Extended(d, piece).order
    ensures forall i :: i in nextObjects ==> fresh(nextObjects[i]) || (i in objects && nextObjects[i] == objects[i])
  {
    nextObjects, nextOrder := objects, order;
    match piece {
      case Start(i, fields) =>
        var block := new Block(fields);
        nextObjects := objects[i := block];
        nextOrder := order + [i];
      case Delta(i, channel, text) =>
        if i in objects {
          objects[i].Add(channel, text);
        }
      case Nothing =>
      case Broken =>
    }
  }

  lemma BuiltGrows(pieces: seq<Piece>, n: nat)
    requires n < |pieces|
    ensures Built(pieces[..n + 1]) == Extended(Built(pieces[..n]), pieces[n])
  {
    assert pieces[..n + 1][..n] == pieces[..n];
  }

  lemma NothingBuilt()
    ensures Built([]) == Draft(map[], [])
  {
  }

  method Collect(events: seq<Event>) returns (objects: map<int, Block>, order: seq<int>, failed: bool)
    ensures failed <==> Broken in PiecesOf(events)
    ensures !failed ==> Holds(objects, Built(PiecesOf(events)).blocks) && order == Built(PiecesOf(events)).order
    ensures forall i :: i in objects ==> fresh(objects[i])
  {
    hide Extended, Built;
    objects, order, failed := map[], [], false;
    NothingBuilt();
    ghost var pieces := PiecesOf(events);
    for n := 0 to |events|
      invariant forall i :: i in objects ==> fresh(objects[i])
      invariant Broken !in pieces[..n]
      invariant Holds(objects, Built(pieces[..n]).blocks) && order == Built(pieces[..n]).order
    {
      var piece := PieceOf(events[n]);
      if piece.Broken? {
        assert pieces[n] == Broken;
        return objects, order, true;
      }
      BuiltGrows(pieces, n);
      objects, order := Take(objects, order, piece, Built(pieces[..n]));
    }
    assert pieces[..|events|] == pieces;
  }

  /** Some of the blocks are finished, the others as they were built. */
  ghost predicate Finishing(objects: map<int, Block>, blocks: map<int, Fields>, done: seq<int>,
                            loads: string -> Option<Json>)
    reads set i | i in objects :: objects[i]
  {
    && objects.Keys == blocks.Keys
    && (forall i :: i in objects ==>
          objects[i].fields == if i in done then Finished(blocks[i], loads) else blocks[i])
    && (forall i, j :: i in objects && j in objects && i != j ==> objects[i] != objects[j])
  }

  method FinishOne(objects: map<int, Block>, i: int, loads: string -> Option<Json>,
                   ghost blocks: map<int, Fields>, ghost done: seq<int>)
    requires Finishing(objects, blocks, done, loads) && i in objects
    modifies objects[i]
    ensures Finishing(objects, blocks, done + [i], loads)
  {
    FinishedOnce(blocks[i], loads);
    objects[i].Finish(loads);
  }

  /** The assistant message of a stream of events, or a failure when an event of
      a block names no index. A block that started twice is listed twice, and
      both places are the same object. */
  method AssistantContentFromEvents(events: seq<Event>, loads: string -> Option<Json>)
    returns (content: seq<Block>, failed: bool)
    ensures failed <==> Broken in PiecesOf(events)
    ensures !failed ==>
              && |content| == |Content(PiecesOf(events), loads)|
              && (forall k :: 0 <= k < |content| ==>
                    content[k].fields == Content(PiecesOf(events), loads)[k] && fresh(content[k]))
  {
    var objects, order;
    objects, order, failed := Collect(events);
    if failed {
      return [], true;
    }
    BuiltHasItsOrder(PiecesOf(events));
    content := FinishAll(objects, order, loads, Built(PiecesOf(events)));
    forall k | 0 <= k < |content|
      ensures content[k].fields == Content(PiecesOf(events), loads)[k] && fresh(content[k])
    {
      var i := order[k];
      assert i in objects && content[k] == objects[i];
      assert fresh(objects[i]);
    }
  }

  method FinishAll(objects: map<int, Block>, order: seq<int>, loads: string -> Option<Json>, ghost d: Draft)
    returns (content: seq<Block>)
    requires OrderIsBuilt(d) && Holds(objects, d.blocks) && order == d.order
    modifies set i | i in objects :: objects[i]
    ensures |content| == |order|
    ensures forall k :: 0 <= k < |order| ==>
              order[k] in objects && content[k] == objects[order[k]] && content[k].fields == Listed(d, loads)[k]
  {
    content := [];
    for n := 0 to |order|
      invariant |content| == n
      invariant forall k :: 0 <= k < n ==> order[k] in objects && content[k] == objects[order[k]]
      invariant Finishing(objects, d.blocks, order[..n], loads)
    {
      assert order[..n + 1] == order[..n] + [order[n]];
      FinishOne(objects, order[n], loads, d.blocks, order[..n]);
      content := content + [objects[order[n]]];
    }
    assert order[..|order|] == order;
    forall k | 0 <= k < |order|
      ensures content[k].fields == Listed(d, loads)[k]
    {
      var i := order[k];
      assert i in order;
      assert i in objects;
      assert objects[i].fields == Finished(d.blocks[i], loads);
      assert Listed(d, loads)[k] == Finished(d.blocks[d.order[k]], loads);
    }
  }
}
