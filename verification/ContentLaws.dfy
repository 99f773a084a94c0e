/** A message depends only on the order its blocks start in and on the text
    each block's channels add up to, never on how the deltas interleave. */
module ContentLaws {
  import opened Common
  import opened ContentBlocks

  // ---- what a series of pieces says --------------------------------------------------

  /** The starts, in order. */
  function Starts(pieces: seq<Piece>): seq<(int, Fields)> {
    if pieces == [] then []
    else
      var last := pieces[|pieces| - 1];
      Starts(pieces[..|pieces| - 1]) + if last.Start? then [(last.index, last.block)] else []
  }

  function LastOf(starts: seq<(int, Fields)>, i: int): Option<Fields> {
    if starts == [] then None
    else
      var last := starts[|starts| - 1];
      if last.0 == i then Some(last.1) else LastOf(starts[..|starts| - 1], i)
  }

  function Join(before: Option<string>, text: string): Option<string> {
    Some((if before.Some? then before.value else "") + text)
  }

  /** What channel `c` of block `i` adds up to since the block last started. */
  function Since(pieces: seq<Piece>, i: int, c: Channel): Option<string> {
    if pieces == [] then None
    else
      var last, before := pieces[|pieces| - 1], pieces[..|pieces| - 1];
      if last.Start? && last.index == i then None
      else if last.Delta? && last.index == i && last.channel == c then Join(Since(before, i, c), last.text)
      else Since(before, i, c)
  }

  /** What it adds up to in all. */
  function Joined(pieces: seq<Piece>, i: int, c: Channel): Option<string> {
    if pieces == [] then None
    else
      var last, before := pieces[|pieces| - 1], pieces[..|pieces| - 1];
      if last.Delta? && last.index == i && last.channel == c then Join(Joined(before, i, c), last.text)
      else Joined(before, i, c)
  }

  // ---- a block is its start and its three sums ------------------------------------------

  function With(block: Fields, c: Channel, text: Option<string>): Fields {
    if text.None? then block else Added(block, c, text.value)
  }

  function Merged(block: Fields, text: Option<string>, thinking: Option<string>, json: Option<string>): Fields {
    With(With(With(block, Text, text), Thinking, thinking), PartialJson, json)
  }

  function Reads(pieces: seq<Piece>, i: int, block: Fields): Fields {
    Merged(block, Since(pieces, i, Text), Since(pieces, i, Thinking), Since(pieces, i, PartialJson))
  }

  lemma AddedTwice(block: Fields, c: Channel, x: string, y: string)
    ensures Added(Added(block, c, x), c, y) == Added(block, c, x + y)
  {
    var was := Shown(Get(block, c.Key(), Str("")));
    assert (was + x) + y == was + (x + y);
  }

  lemma AddedApart(block: Fields, c: Channel, x: string, d: Channel, y: string)
    requires c != d
    ensures Added(Added(block, c, x), d, y) == Added(Added(block, d, y), c, x)
  {
    assert c.Key() != d.Key();
  }

  lemma WithJoins(block: Fields, c: Channel, text: Option<string>, more: string)
    ensures Added(With(block, c, text), c, more) == With(block, c, Join(text, more))
  {
    if text.Some? {
      AddedTwice(block, c, text.value, more);
    } else {
      assert "" + more == more;
    }
  }

  lemma WithApart(block: Fields, c: Channel, text: Option<string>, d: Channel, more: string)
    requires c != d
    ensures Added(With(block, c, text), d, more) == With(Added(block, d, more), c, text)
  {
    if text.Some? {
      AddedApart(block, c, text.value, d, more);
    }
  }

  /** A delta grows the sum of its own channel and no other. */
  lemma MergedGrows(block: Fields, c: Channel, text: Option<string>, thinking: Option<string>, json: Option<string>,
                    more: string)
    ensures Added(Merged(block, text, thinking, json), c, more)
            == match c
               case Text => Merged(block, Join(text, more), thinking, json)
               case Thinking => Merged(block, text, Join(thinking, more), json)
               case PartialJson => Merged(block, text, thinking, Join(json, more))
  {
    hide Added, With;
    var one := With(block, Text, text);
    var two := With(one, Thinking, thinking);
    match c
    case Text =>
      WithApart(two, PartialJson, json, Text, more);
      WithApart(one, Thinking, thinking, Text, more);
      WithJoins(block, Text, text, more);
    case Thinking =>
      WithApart(two, PartialJson, json, Thinking, more);
      WithJoins(one, Thinking, thinking, more);
    case PartialJson =>
      WithJoins(two, PartialJson, json, more);
  }

  /** `d` is what the pieces say: the started blocks, each its last start with
      its sums added, in the order of the starts. */
  ghost predicate SaidBy(pieces: seq<Piece>, d: Draft) {
    && (forall i :: i in d.blocks <==> LastOf(Starts(pieces), i).Some?)
    && (forall i :: i in d.blocks ==> d.blocks[i] == Reads(pieces, i, LastOf(Starts(pieces), i).value))
    && |d.order| == |Starts(pieces)|
    && (forall k :: 0 <= k < |d.order| ==> d.order[k] == Starts(pieces)[k].0)
  }

  lemma StartsGrow(pieces: seq<Piece>, p: Piece, i: int)
    ensures Starts(pieces + [p]) == Starts(pieces) + if p.Start? then [(p.index, p.block)] else []
    ensures LastOf(Starts(pieces + [p]), i)
            == if p.Start? && p.index == i then Some(p.block) else LastOf(Starts(pieces), i)
  {
    assert (pieces + [p])[..|pieces|] == pieces;
    if p.Start? {
      assert (Starts(pieces) + [(p.index, p.block)])[..|Starts(pieces)|] == Starts(pieces);
    } else {
      assert Starts(pieces) + [] == Starts(pieces);
    }
  }

  lemma SinceGrows(pieces: seq<Piece>, p: Piece, i: int, c: Channel)
    ensures Since(pieces + [p], i, c)
            == if p.Start? && p.index == i then None
               else if p.Delta? && p.index == i && p.channel == c then Join(Since(pieces, i, c), p.text)
               else Since(pieces, i, c)
  {
    assert (pieces + [p])[..|pieces|] == pieces;
  }

  lemma ReadsGrow(pieces: seq<Piece>, p: Piece, i: int, block: Fields)
    ensures Reads(pieces + [p], i, block)
            == if p.Start? && p.index == i then block
               else if p.Delta? && p.index == i then Added(Reads(pieces, i, block), p.channel, p.text)
               else Reads(pieces, i, block)
  {
    hide Since, Added, Join;
    SinceGrows(pieces, p, i, Text);
    SinceGrows(pieces, p, i, Thinking);
    SinceGrows(pieces, p, i, PartialJson);
    if p.Delta? && p.index == i {
      MergedGrows(block, p.channel, Since(pieces, i, Text), Since(pieces, i, Thinking), Since(pieces, i, PartialJson),
                  p.text);
    }
  }

  lemma SaidGrows(pieces: seq<Piece>, p: Piece, d: Draft)
    requires SaidBy(pieces, d)
    ensures SaidBy(pieces + [p], Extended(d, p))
  {
    hide Starts, LastOf, Reads, Added;
    var n := Extended(d, p);
    forall i
      ensures i in n.blocks <==> LastOf(Starts(pieces + [p]), i).Some?
      ensures i in n.blocks ==> n.blocks[i] == Reads(pieces + [p], i, LastOf(Starts(pieces + [p]), i).value)
    {
      StartsGrow(pieces, p, i);
      var last := LastOf(Starts(pieces + [p]), i);
      if last.Some? {
        ReadsGrow(pieces, p, i, last.value);
      }
    }
    StartsGrow(pieces, p, 0);
  }

  /** What is built is what the pieces say. */
  lemma {:induction false} BuiltIsSaid(pieces: seq<Piece>)
    ensures SaidBy(pieces, Built(pieces))
  {
    if pieces != [] {
      var before := pieces[..|pieces| - 1];
      BuiltIsSaid(before);
      assert pieces == before + [pieces[|pieces| - 1]];
      SaidGrows(before, pieces[|pieces| - 1], Built(before));
    }
  }

  // ---- interleaving -------------------------------------------------------------------------

  ghost predicate SameSums(some: seq<Piece>, other: seq<Piece>) {
    forall i, c :: LastOf(Starts(some), i).Some? ==> Since(some, i, c) == Since(other, i, c)
  }

  /** The same starts in the same order, and the same sums since each block last
      started: the same message. */
  lemma OnlyStartsAndSums(some: seq<Piece>, other: seq<Piece>, loads: string -> Option<Json>)
    requires Starts(some) == Starts(other) && SameSums(some, other)
    ensures Content(some, loads) == Content(other, loads)
  {
    hide Built, Starts, LastOf, Since, Finished;
    BuiltIsSaid(some);
    BuiltIsSaid(other);
    var d, e := Built(some), Built(other);
    assert d.order == e.order;
    assert forall i :: i in d.blocks <==> i in e.blocks;
    forall i | i in d.blocks ensures d.blocks[i] == e.blocks[i] {
      assert forall c :: Since(some, i, c) == Since(other, i, c);
    }
    assert d.blocks == e.blocks;
  }

  /** Each block starts at most once, and before every delta to it. */
  ghost predicate StartsFirst(pieces: seq<Piece>) {
    forall a, b :: 0 <= a < |pieces| && 0 <= b < |pieces| && a != b
                   && pieces[a].Start? && (pieces[b].Start? || pieces[b].Delta?) && pieces[b].index == pieces[a].index
                   ==> a < b
  }

  lemma {:induction false} NothingToJoin(pieces: seq<Piece>, i: int, c: Channel)
    requires forall b :: 0 <= b < |pieces| && pieces[b].Delta? ==> pieces[b].index != i
    ensures Joined(pieces, i, c) == None
  {
    if pieces != [] {
      NothingToJoin(pieces[..|pieces| - 1], i, c);
    }
  }

  lemma {:induction false} SinceIsJoined(pieces: seq<Piece>, i: int, c: Channel)
    requires StartsFirst(pieces) && LastOf(Starts(pieces), i).Some?
    ensures Since(pieces, i, c) == Joined(pieces, i, c)
  {
    if pieces != [] {
      var n := |pieces| - 1;
      var before, last := pieces[..n], pieces[n];
      assert pieces == before + [last];
      StartsGrow(before, last, i);
      if last.Start? && last.index == i {
        assert forall b :: 0 <= b < n && before[b].Delta? ==> pieces[b] == before[b] && before[b].index != i;
        NothingToJoin(before, i, c);
      } else {
        assert StartsFirst(before);
        SinceIsJoined(before, i, c);
      }
    }
  }

  /** When each block starts once, before its deltas, the message is its starts
      in order and each block's deltas run together: moving deltas of different
      blocks or channels past each other, or cutting one in pieces, changes
      nothing. */
  lemma InterleavingIsIrrelevant(some: seq<Piece>, other: seq<Piece>, loads: string -> Option<Json>)
    requires StartsFirst(some) && StartsFirst(other) && Starts(some) == Starts(other)
    requires forall i, c :: Joined(some, i, c) == Joined(other, i, c)
    ensures Content(some, loads) == Content(other, loads)
  {
    hide Starts, LastOf, Since, Joined, StartsFirst, Content;
    forall i, c | LastOf(Starts(some), i).Some?
      ensures Since(some, i, c) == Since(other, i, c)
    {
      SinceIsJoined(some, i, c);
      SinceIsJoined(other, i, c);
    }
    OnlyStartsAndSums(some, other, loads);
  }

  lemma {:induction false} SuffixCarries(some: seq<Piece>, other: seq<Piece>, after: seq<Piece>)
    requires Built(some) == Built(other)
    ensures Built(some + after) == Built(other + after)
  {
    hide Extended;
    if after == [] {
      assert some + after == some && other + after == other;
    } else {
      var n := |after| - 1;
      SuffixCarries(some, other, after[..n]);
      assert (some + after)[..|some| + n] == some + after[..n];
      assert (other + after)[..|other| + n] == other + after[..n];
    }
  }

  lemma BuiltTwo(before: seq<Piece>, p: Piece, q: Piece)
    ensures Built(before + [p, q]) == Extended(Extended(Built(before), p), q)
    ensures Built(before + [p]) == Extended(Built(before), p)
  {
    hide Extended;
    assert (before + [p, q])[..|before| + 1] == before + [p];
    assert (before + [p])[..|before|] == before;
  }

  /** A delta cut in two says the same, wherever it stands. */
  lemma SplitDelta(before: seq<Piece>, i: int, c: Channel, x: string, y: string, after: seq<Piece>,
                   loads: string -> Option<Json>)
    ensures Content(before + [Delta(i, c, x + y)] + after, loads)
            == Content(before + [Delta(i, c, x), Delta(i, c, y)] + after, loads)
  {
    hide Built, Added;
    BuiltTwo(before, Delta(i, c, x), Delta(i, c, y));
    BuiltTwo(before, Delta(i, c, x + y), Nothing);
    if i in Built(before).blocks {
      AddedTwice(Built(before).blocks[i], c, x, y);
    }
    SuffixCarries(before + [Delta(i, c, x + y)], before + [Delta(i, c, x), Delta(i, c, y)], after);
  }

  lemma DeltasCommute(d: Draft, p: Piece, q: Piece)
    requires p.Delta? && q.Delta? && (p.index != q.index || p.channel != q.channel)
    ensures Extended(Extended(d, p), q) == Extended(Extended(d, q), p)
  {
    hide Added;
    if p.index == q.index && p.index in d.blocks {
      AddedApart(d.blocks[p.index], p.channel, p.text, q.channel, q.text);
    }
  }

  /** Two neighbouring deltas of different blocks or channels may change places. */
  lemma SwapDeltas(before: seq<Piece>, p: Piece, q: Piece, after: seq<Piece>, loads: string -> Option<Json>)
    requires p.Delta? && q.Delta? && (p.index != q.index || p.channel != q.channel)
    ensures Content(before + [p, q] + after, loads) == Content(before + [q, p] + after, loads)
  {
    hide Built, Extended;
    BuiltTwo(before, p, q);
    BuiltTwo(before, q, p);
    DeltasCommute(Built(before), p, q);
    SuffixCarries(before + [p, q], before + [q, p], after);
  }
}
