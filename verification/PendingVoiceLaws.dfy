/** What the pending-voice index keeps, whatever is seeded and cancelled. */
module PendingVoiceLaws {
  import opened Common
  import opened PendingIndex

  // ---- what consistency says of one key and of two ------------------------------------

  lemma NoteAt(m: map<Key, Note>, k: Key)
    requires Consistent(m) && k in m
    ensures var note := m[k];
            && k in note.Keys() && note.Head() in note.Keys() && k.scope == note.scope && note.status.Some?
            && note.Keys() == {Key(note.scope, note.voice), Key(note.scope, note.status.value)}
            && |note.Keys()| == 2 && note.Keys() <= m.Keys
            && (forall other :: other in note.Keys() ==> other in m && m[other] == note)
  {
  }

  /** Two notes that share a key are one note. */
  lemma SharedKey(m: map<Key, Note>, k: Key, l: Key, shared: Key)
    requires Consistent(m) && k in m && l in m && shared in m[k].Keys() && shared in m[l].Keys()
    ensures m[k] == m[l] && shared in m
  {
    NoteAt(m, k);
    NoteAt(m, l);
  }

  // ---- seeding ---------------------------------------------------------------------------

  /** The ids differ, and both are unused or both are those of one note. */
  predicate Seedable(m: map<Key, Note>, scope: Scope, voice: string, status: string) {
    var a, b := Key(scope, voice), Key(scope, status);
    && voice != status
    && ((a !in m && b !in m) || (a in m && b in m && m[a] == m[b]))
  }

  lemma SeededIs(d: Index, scope: Scope, voice: string, status: string)
    ensures var note := Note(scope, voice, Some(status), {voice, status});
            Seeded(d, scope, voice, status).at == d.at[Key(scope, voice) := note][Key(scope, status) := note]
  {
  }

  /** A key used by some note whose other key is not overwritten with it. */
  lemma HalfOverwritten(m: map<Key, Note>, a: Key, b: Key) returns (k: Key, other: Key)
    requires Consistent(m) && a != b
    requires !(a !in m && b !in m) && !(a in m && b in m && m[a] == m[b])
    ensures k in {a, b} && k in m && other in m[k].Keys() && other !in {a, b}
  {
    k := if a in m then a else b;
    NoteAt(m, k);
    var note := m[k];
    var first, second := Key(note.scope, note.voice), Key(note.scope, note.status.value);
    assert first != second;
    other := if first in {a, b} then second else first;
  }

  /** The overwritten keys are no key of any other note. */
  lemma OthersAreApart(m: map<Key, Note>, a: Key, b: Key, k: Key)
    requires Consistent(m) && k in m && k !in {a, b}
    requires (a !in m && b !in m) || (a in m && b in m && m[a] == m[b] && m[a].Keys() == {a, b})
    ensures a !in m[k].Keys() && b !in m[k].Keys()
  {
    NoteAt(m, k);
    if a in m {
      NoteAt(m, a);
    }
  }

  lemma StaysWhole(m: map<Key, Note>, n: map<Key, Note>, k: Key)
    requires k in m && Whole(m, k)
    requires forall other :: other in m[k].Keys() ==> other in n && other in m && n[other] == m[other]
    ensures k in n && Whole(n, k)
  {
  }

  lemma SeedKeeps(d: Index, scope: Scope, voice: string, status: string)
    requires Consistent(d.at) && Seedable(d.at, scope, voice, status)
    ensures Consistent(Seeded(d, scope, voice, status).at)
  {
    hide Seeded, Note.Keys, Whole;
    SeededIs(d, scope, voice, status);
    var n := Seeded(d, scope, voice, status).at;
    var a, b := Key(scope, voice), Key(scope, status);
    if a in d.at {
      NoteAt(d.at, a);
      NoteAt(d.at, b);
    }
    forall k | k in n ensures Whole(n, k) {
      if k == a || k == b {
        NewIsWhole(n, n[k], k);
      } else {
        OthersAreApart(d.at, a, b, k);
        NoteAt(d.at, k);
        StaysWhole(d.at, n, k);
      }
    }
  }

  lemma NewIsWhole(n: map<Key, Note>, note: Note, k: Key)
    requires note.status.Some? && note.status.value != note.voice
    requires k in {Key(note.scope, note.voice), Key(note.scope, note.status.value)}
    requires Key(note.scope, note.voice) in n && n[Key(note.scope, note.voice)] == note
    requires Key(note.scope, note.status.value) in n && n[Key(note.scope, note.status.value)] == note
    ensures Whole(n, k)
  {
  }

  lemma SeedBreaks(d: Index, scope: Scope, voice: string, status: string)
    requires Consistent(d.at) && !Seedable(d.at, scope, voice, status)
    ensures !Consistent(Seeded(d, scope, voice, status).at)
  {
    hide Seeded, Consistent;
    SeededIs(d, scope, voice, status);
    var m := Seeded(d, scope, voice, status).at;
    var a, b := Key(scope, voice), Key(scope, status);
    if voice == status {
      SameIdBreaks(m, a);
    } else {
      var k, other := HalfOverwritten(d.at, a, b);
      NoteAt(d.at, k);
      HalfBreaks(m, k, other);
    }
  }

  lemma SameIdBreaks(m: map<Key, Note>, a: Key)
    requires a in m && m[a].status == Some(m[a].voice)
    ensures !Consistent(m)
  {
  }

  lemma HalfBreaks(m: map<Key, Note>, k: Key, other: Key)
    requires k in m && other in m && k in m[other].Keys() && other !in m[k].Keys()
    ensures !Consistent(m)
  {
  }

  /** Seeding keeps every note at exactly two keys just when the ids differ and
      are both unused, or are both those of one note already there. */
  lemma SeedKeepsExactly(d: Index, scope: Scope, voice: string, status: string)
    requires Consistent(d.at)
    ensures Consistent(Seeded(d, scope, voice, status).at) <==> Seedable(d.at, scope, voice, status)
  {
    hide Consistent, Seeded, Seedable;
    if Seedable(d.at, scope, voice, status) {
      SeedKeeps(d, scope, voice, status);
    } else {
      SeedBreaks(d, scope, voice, status);
    }
  }

  /** A note with one id for both of its keys. */
  lemma OneIdBreaks(scope: Scope)
    ensures Consistent(EMPTY.at) && !Consistent(Seeded(EMPTY, scope, "a", "a").at)
  {
    SeedKeepsExactly(EMPTY, scope, "a", "a");
  }

  /** A note that takes one id over from another. */
  lemma ReusedIdBreaks(scope: Scope)
    ensures var one := Seeded(EMPTY, scope, "a", "b");
            Consistent(one.at) && !Consistent(Seeded(one, scope, "a", "c").at)
  {
    var one := Seeded(EMPTY, scope, "a", "b");
    assert "a" != "b" && "b" != "c" && "a" != "c";
    SeedKeepsExactly(EMPTY, scope, "a", "b");
    SeedKeepsExactly(one, scope, "a", "c");
  }

  // ---- cancelling one note ---------------------------------------------------------------

  lemma PoppedIs(d: Index, note: Note)
    ensures Popped(d, note.scope, note).at == d.at - note.Keys()
  {
  }

  /** Cancelling by either key of a note removes exactly its two keys. */
  lemma CancelTakesThePair(d: Index, scope: Scope, reply: string, either: Key)
    requires Consistent(d.at) && Key(scope, reply) in d.at
    requires either in d.at[Key(scope, reply)].Keys()
    ensures var note := d.at[Key(scope, reply)];
            && Cancelled(d, scope, either.id).at == d.at - note.Keys()
            && |note.Keys()| == 2 && note.Keys() <= d.at.Keys
  {
    hide Consistent, Popped, Note.Keys;
    NoteAt(d.at, Key(scope, reply));
    NoteAt(d.at, either);
    PoppedIs(d, d.at[either]);
  }

  lemma RemovingKeeps(m: map<Key, Note>, note: Note)
    requires Consistent(m) && note.Head() in m && m[note.Head()] == note
    ensures Consistent(m - note.Keys())
  {
    var n := m - note.Keys();
    forall k, other | k in n && other in m[k].Keys()
      ensures other in n
    {
      NoteAt(m, k);
      NoteAt(m, note.Head());
      if other in note.Keys() {
        SharedKey(m, k, note.Head(), other);
      }
    }
  }

  lemma RemovingTakesOneHead(m: map<Key, Note>, note: Note)
    requires Consistent(m) && note.Head() in m && m[note.Head()] == note
    ensures Heads(m - note.Keys()) == Heads(m) - {note.Head()} && note.Head() in Heads(m)
  {
    hide Consistent, Note.Keys;
    var n := m - note.Keys();
    NoteAt(m, note.Head());
    forall k | k in m
      ensures m[k].Head() == note.Head() <==> k in note.Keys()
    {
      NoteAt(m, k);
      if m[k].Head() == note.Head() {
        SharedKey(m, k, note.Head(), note.Head());
      }
    }
    forall h | h in Heads(m) && h != note.Head() ensures h in Heads(n) {
      var k :| k in m && m[k].Head() == h;
      assert k in n;
    }
  }

  /** Cancelling keeps the index consistent and lowers the count by one. */
  lemma CancelLowersTheCount(d: Index, scope: Scope, reply: string)
    requires Consistent(d.at) && Key(scope, reply) in d.at
    ensures Consistent(Cancelled(d, scope, reply).at)
    ensures |Heads(Cancelled(d, scope, reply).at)| == |Heads(d.at)| - 1
  {
    hide Consistent, Note.Keys, Cancelled, Heads;
    var note := d.at[Key(scope, reply)];
    NoteAt(d.at, Key(scope, reply));
    CancelTakesThePair(d, scope, reply, Key(scope, reply));
    RemovingKeeps(d.at, note);
    RemovingTakesOneHead(d.at, note);
  }

  /** Every pending note is counted once for its two keys. */
  lemma {:induction false} CountIsHalf(m: map<Key, Note>)
    requires Consistent(m)
    ensures |m| == 2 * |Heads(m)|
    decreases |m|
  {
    hide Consistent, Note.Keys, Heads;
    if m == map[] {
      NoHeads();
    } else {
      var k :| k in m;
      var note := m[k];
      NoteAt(m, k);
      RemovingKeeps(m, note);
      RemovingTakesOneHead(m, note);
      assert (m - note.Keys()).Keys == m.Keys - note.Keys();
      assert |m.Keys - note.Keys()| == |m.Keys| - 2;
      CountIsHalf(m - note.Keys());
    }
  }

  lemma CountWhenConsistent(m: map<Key, Note>)
    ensures Consistent(m) ==> |m| == 2 * |Heads(m)|
  {
    hide Consistent, Heads;
    if Consistent(m) {
      CountIsHalf(m);
    }
  }

  lemma NoHeads()
    ensures Heads(map[]) == {}
  {
  }

  /** A cancel right after a seed with unused ids leaves the index as it was. */
  lemma CancelUndoesSeed(d: Index, scope: Scope, voice: string, status: string, reply: string)
    requires Consistent(d.at) && voice != status && reply in {voice, status}
    requires Key(scope, voice) !in d.at && Key(scope, status) !in d.at
    ensures Cancelled(Seeded(d, scope, voice, status), scope, reply).at == d.at
    ensures |Heads(Seeded(d, scope, voice, status).at)| == |Heads(d.at)| + 1
  {
    hide Consistent, Note.Keys, Cancelled, Heads, Seeded;
    var s := Seeded(d, scope, voice, status);
    SeededIs(d, scope, voice, status);
    SeedKeeps(d, scope, voice, status);
    NoteAt(s.at, Key(scope, reply));
    CancelTakesThePair(s, scope, reply, Key(scope, reply));
    CancelLowersTheCount(s, scope, reply);
    assert s.at - {Key(scope, voice), Key(scope, status)} == d.at;
  }

  // ---- cancelling many -----------------------------------------------------------------

  predicate IsWanted(d: Index, wanted: Option<Scope>, note: Note) {
    exists k :: k in d.at && Wants(wanted, k) && d.at[k] == note
  }

  lemma WantedHead(d: Index, wanted: Option<Scope>, k: Key)
    requires Consistent(d.at) && k in d.at && Wants(wanted, k)
    ensures HeadIn(wanted, d.at[k]) == d.at[k].Head() && d.at[k].Head() in d.at && d.at[d.at[k].Head()] == d.at[k]
  {
    NoteAt(d.at, k);
  }

  lemma CollectedIsWanted(d: Index, wanted: Option<Scope>, c: Index)
    requires d.Valid() && Consistent(d.at) && c == Collected(d, wanted, |d.keys|)
    ensures c.Valid()
    ensures forall h :: h in c.at ==> h == c.at[h].Head() && IsWanted(d, wanted, c.at[h])
    ensures forall k :: k in d.at && Wants(wanted, k) ==> d.at[k].Head() in c.at && c.at[d.at[k].Head()] == d.at[k]
  {
    hide Collected, Consistent, Note.Keys, Wants, HeadIn, Note.Head;
    CollectedHolds(d, wanted, |d.keys|);
    forall h | h in c.at
      ensures h == c.at[h].Head() && IsWanted(d, wanted, c.at[h]) && h in d.at && d.at[h] == c.at[h]
    {
      var i :| 0 <= i < |d.keys| && Gives(d, wanted, i, c.at[h]);
      WantedHead(d, wanted, d.keys[i]);
    }
    forall k | k in d.at && Wants(wanted, k)
      ensures d.at[k].Head() in c.at && c.at[d.at[k].Head()] == d.at[k]
    {
      var i :| 0 <= i < |d.keys| && d.keys[i] == k;
      assert Gives(d, wanted, i, d.at[k]);
      WantedHead(d, wanted, k);
    }
  }

  /** What a scope-wide or a global cancel returns: each note concerned, once. */
  lemma HarvestIsExact(d: Index, wanted: Option<Scope>)
    requires d.Valid() && Consistent(d.at)
    ensures Distinct(Harvest(d, wanted))
    ensures forall note :: note in Harvest(d, wanted) <==> IsWanted(d, wanted, note)
  {
    hide Collected, Consistent, Note.Keys, Wants, HeadIn, Note.Head;
    var c := Collected(d, wanted, |d.keys|);
    CollectedIsWanted(d, wanted, c);
    var notes := Harvest(d, wanted);
    forall i, j | 0 <= i < j < |notes| ensures notes[i] != notes[j] {
      assert c.keys[i] == notes[i].Head() && c.keys[j] == notes[j].Head();
    }
    forall note | IsWanted(d, wanted, note) ensures note in notes {
      var k :| k in d.at && Wants(wanted, k) && d.at[k] == note;
      assert note.Head() in c.keys;
      var i :| 0 <= i < |c.keys| && c.keys[i] == note.Head();
      assert notes[i] == note;
    }
  }

  ghost predicate Untouched(notes: seq<Note>, k: Key) {
    forall note :: note in notes ==> k !in note.Keys()
  }

  lemma {:induction false} PoppedAllRemoves(d: Index, scope: Scope, notes: seq<Note>)
    requires forall note :: note in notes ==> note.scope == scope
    ensures forall k :: k in PoppedAll(d, scope, notes).at <==> k in d.at && Untouched(notes, k)
    ensures forall k :: k in PoppedAll(d, scope, notes).at ==> PoppedAll(d, scope, notes).at[k] == d.at[k]
    decreases |notes|
  {
    hide Popped, Note.Keys;
    if notes != [] {
      PoppedIs(d, notes[0]);
      PoppedAllRemoves(Popped(d, scope, notes[0]), scope, notes[1..]);
      assert forall note :: note in notes <==> note == notes[0] || note in notes[1..];
    }
  }

  function OutsideOf(m: map<Key, Note>, scope: Scope): map<Key, Note> {
    map k | k in m && k.scope != scope :: m[k]
  }

  lemma WantedIsInScope(d: Index, scope: Scope, note: Note)
    requires Consistent(d.at) && IsWanted(d, Some(scope), note)
    ensures note.scope == scope
  {
    hide Consistent, Note.Keys;
    var k :| k in d.at && Wants(Some(scope), k) && d.at[k] == note;
    NoteAt(d.at, k);
  }

  /** A scope-wide cancel removes that scope and leaves every other untouched. */
  lemma ScopeIsEmptied(d: Index, scope: Scope)
    requires d.Valid() && Consistent(d.at)
    ensures PoppedAll(d, scope, Harvest(d, Some(scope))).at == OutsideOf(d.at, scope)
    ensures Consistent(OutsideOf(d.at, scope))
  {
    hide Dict.Valid, Consistent, Note.Keys, PoppedAll, Harvest, IsWanted, Untouched;
    var notes := Harvest(d, Some(scope));
    HarvestIsExact(d, Some(scope));
    forall note | note in notes ensures note.scope == scope {
      WantedIsInScope(d, scope, note);
    }
    PoppedAllRemoves(d, scope, notes);
    forall k | k in d.at ensures k.scope == scope <==> !Untouched(notes, k) {
      InScopeIsTouched(d, scope, notes, k);
    }
    OutsideKeeps(d.at, scope);
  }

  lemma InScopeIsTouched(d: Index, scope: Scope, notes: seq<Note>, k: Key)
    requires Consistent(d.at) && k in d.at
    requires forall note :: note in notes <==> IsWanted(d, Some(scope), note)
    requires forall note :: note in notes ==> note.scope == scope
    ensures k.scope == scope <==> !Untouched(notes, k)
  {
    NoteAt(d.at, k);
    if k.scope == scope {
      assert Wants(Some(scope), k) && d.at[k] in notes;
    } else {
      assert forall note :: note in notes ==> k !in note.Keys();
    }
  }

  lemma OutsideKeeps(m: map<Key, Note>, scope: Scope)
    requires Consistent(m)
    ensures Consistent(OutsideOf(m, scope))
  {
    var n := OutsideOf(m, scope);
    forall k | k in n ensures Whole(n, k) {
      NoteAt(m, k);
      assert forall other :: other in m[k].Keys() ==> other.scope == k.scope;
    }
  }

  // ---- any sequence of operations -----------------------------------------------------------

  datatype Op =
    | Seed(scope: Scope, voice: string, status: string)
    | Cancel(at: Scope, reply: string)
    | CancelScope(all: Scope)
    | CancelAll

  ghost function Applied(d: Index, op: Op): Index
    requires d.Valid()
  {
    match op
    case Seed(scope, voice, status) => Seeded(d, scope, voice, status)
    case Cancel(scope, reply) => Cancelled(d, scope, reply)
    case CancelScope(scope) => PoppedAll(d, scope, Harvest(d, Some(scope)))
    case CancelAll => EMPTY
  }

  predicate Proper(d: Index, op: Op) {
    op.Seed? ==> Seedable(d.at, op.scope, op.voice, op.status)
  }

  lemma {:induction false} PoppedAllIsValid(d: Index, scope: Scope, notes: seq<Note>)
    requires d.Valid()
    ensures PoppedAll(d, scope, notes).Valid()
    decreases |notes|
  {
    hide Dict.Valid;
    if notes != [] {
      PoppedIsValid(d, scope, notes[0]);
      PoppedAllIsValid(Popped(d, scope, notes[0]), scope, notes[1..]);
    }
  }

  lemma PoppedIsValid(d: Index, scope: Scope, note: Note)
    requires d.Valid()
    ensures Popped(d, scope, note).Valid()
  {
    PopIsValid(d, Key(scope, note.voice));
    if note.status.Some? {
      PopIsValid(d.Pop(Key(scope, note.voice)), Key(scope, note.status.value));
    }
  }

  lemma OneOpIsValid(d: Index, op: Op)
    requires d.Valid()
    ensures Applied(d, op).Valid()
  {
    hide Popped, PoppedAll, Harvest;
    match op
    case Seed(scope, voice, status) =>
    case Cancel(scope, reply) =>
      if Key(scope, reply) in d.at {
        PoppedIsValid(d, scope, d.at[Key(scope, reply)]);
      }
    case CancelScope(scope) => PoppedAllIsValid(d, scope, Harvest(d, Some(scope)));
    case CancelAll =>
  }

  lemma OneOpKeeps(d: Index, op: Op)
    requires d.Valid() && Consistent(d.at) && Proper(d, op)
    ensures Consistent(Applied(d, op).at)
  {
    match op
    case Seed(scope, voice, status) => SeedKeeps(d, scope, voice, status);
    case Cancel(scope, reply) =>
      if Key(scope, reply) in d.at {
        CancelLowersTheCount(d, scope, reply);
      }
    case CancelScope(scope) => ScopeIsEmptied(d, scope);
    case CancelAll =>
  }

  ghost predicate Becomes(d: Index, op: Op, next: Index) {
    d.Valid() ==> Proper(d, op) && next == Applied(d, op)
  }

  /** The indexes a series of operations goes through. */
  ghost predicate IsHistory(ds: seq<Index>, ops: seq<Op>) {
    && |ds| == |ops| + 1 && ds[0] == EMPTY
    && (forall i :: 0 <= i < |ops| ==> Becomes(ds[i], ops[i], ds[i + 1]))
  }

  lemma EmptyIsConsistent()
    ensures EMPTY.Valid() && Consistent(EMPTY.at)
  {
  }

  lemma OneOp(d: Index, op: Op, next: Index)
    requires d.Valid() && Consistent(d.at) && Becomes(d, op, next)
    ensures next.Valid() && Consistent(next.at)
  {
    hide Applied, Proper, Consistent;
    OneOpKeeps(d, op);
    OneOpIsValid(d, op);
  }

  /** After any series of proper seeds and cancels, from an empty index, every
      pending note has exactly two keys, and half the keys is the count. */
  lemma {:induction false} AnyHistoryIsConsistent(ds: seq<Index>, ops: seq<Op>, n: nat)
    requires IsHistory(ds, ops) && n <= |ops|
    ensures ds[n].Valid() && Consistent(ds[n].at)
    ensures |ds[n].at| == 2 * |Heads(ds[n].at)|
  {
    hide Becomes, Heads, Consistent;
    if n > 0 {
      AnyHistoryIsConsistent(ds, ops, n - 1);
      OneOp(ds[n - 1], ops[n - 1], ds[n]);
    } else {
      EmptyIsConsistent();
    }
    CountIsHalf(ds[n].at);
  }
}
