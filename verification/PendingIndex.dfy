/** The index of pending voice notes in the smoke suite's fake platform: one
    dictionary with two keys for every note, and what each operation makes of it. */
module PendingIndex {
  import opened Common

  // ---- an insertion-ordered dictionary --------------------------------------------

  datatype Dict<!K(==,!new), V> = Dict(keys: seq<K>, at: map<K, V>)
  {
    ghost predicate Valid() {
      && (forall k :: k in keys <==> k in at)
      && Distinct(keys)
    }

    function Put(k: K, v: V): Dict<K, V> {
      Dict(if k in at then keys else keys + [k], at[k := v])
    }

    function Pop(k: K): Dict<K, V> {
      Dict(Without(keys, k), at - {k})
    }

    function Values(): (values: seq<V>)
      requires Valid()
      ensures |values| == |keys| && forall i :: 0 <= i < |keys| ==> keys[i] in at && values[i] == at[keys[i]]
    {
      seq(|keys|, i requires 0 <= i < |keys| => assert keys[i] in keys; at[keys[i]])
    }
  }

  predicate Distinct<T(==)>(s: seq<T>) {
    forall i, j :: 0 <= i < j < |s| ==> s[i] != s[j]
  }

  function Without<T(==)>(s: seq<T>, x: T): seq<T> {
    if s == [] then []
    else (if s[0] == x then [] else [s[0]]) + Without(s[1..], x)
  }

  lemma {:induction false} WithoutHas<T(!new)>(s: seq<T>, x: T)
    ensures forall y :: y in Without(s, x) <==> y in s && y != x
  {
    if s != [] {
      WithoutHas(s[1..], x);
    }
  }

  lemma {:induction false} WithoutKeepsDistinct<T(!new)>(s: seq<T>, x: T)
    requires Distinct(s)
    ensures Distinct(Without(s, x))
  {
    if s != [] {
      WithoutKeepsDistinct(s[1..], x);
      WithoutHas(s[1..], x);
      var rest := Without(s[1..], x);
      assert forall j :: 0 <= j < |rest| ==> rest[j] in rest;
      assert s[0] !in s[1..];
    }
  }

  lemma PopIsValid<K(!new), V>(d: Dict<K, V>, k: K)
    requires d.Valid()
    ensures d.Pop(k).Valid()
  {
    WithoutHas(d.keys, k);
    WithoutKeepsDistinct(d.keys, k);
  }

  // ---- the index --------------------------------------------------------------------

  datatype Scope = Scope(platform: string, chat: string)

  datatype Key = Key(scope: Scope, id: string)

  datatype Note = Note(scope: Scope, voice: string, status: Option<string>, deleteIds: set<string>)
  {
    function Head(): Key { Key(scope, voice) }

    function Keys(): set<Key> {
      {Key(scope, voice)} + if status.Some? then {Key(scope, status.value)} else {}
    }
  }

  type Index = Dict<Key, Note>

  const EMPTY: Index := Dict([], map[])

  /** The note under `k` has two keys, `k` one of them, and both lead to it. */
  ghost predicate Whole(m: map<Key, Note>, k: Key)
    requires k in m
  {
    && k in m[k].Keys() && k.scope == m[k].scope
    && m[k].status.Some? && m[k].status.value != m[k].voice
    && (forall other :: other in m[k].Keys() ==> other in m && m[other] == m[k])
  }

  /** Every pending note has exactly its own two keys. */
  ghost predicate Consistent(m: map<Key, Note>) {
    forall k :: k in m ==> Whole(m, k)
  }

  function Seeded(d: Index, scope: Scope, voice: string, status: string): Index {
    var note := Note(scope, voice, Some(status), {voice, status});
    d.Put(Key(scope, voice), note).Put(Key(scope, status), note)
  }

  function Popped(d: Index, scope: Scope, note: Note): Index {
    var first := d.Pop(Key(scope, note.voice));
    if note.status.Some? then first.Pop(Key(scope, note.status.value)) else first
  }

  function Cancelled(d: Index, scope: Scope, reply: string): Index {
    if Key(scope, reply) in d.at then Popped(d, scope, d.at[Key(scope, reply)]) else d
  }

  /** The notes to cancel, each under its head; a later entry with the same head
      replaces an earlier one. */
  function HeadIn(wanted: Option<Scope>, note: Note): Key {
    if wanted.Some? then Key(wanted.value, note.voice) else note.Head()
  }

  predicate Wants(wanted: Option<Scope>, k: Key) {
    wanted.None? || k.scope == wanted.value
  }

  function Collected(d: Index, wanted: Option<Scope>, n: nat): Index
    requires d.Valid() && n <= |d.keys|
  {
    if n == 0 then EMPTY
    else
      var k := d.keys[n - 1];
      KeysAreIn(d, n - 1);
      var before := Collected(d, wanted, n - 1);
      if Wants(wanted, k) then before.Put(HeadIn(wanted, d.at[k]), d.at[k]) else before
  }

  /** `c` holds what the first `n` entries of `d` give: each note wanted, and
      nothing else, under its head. */
  ghost predicate Gathered(d: Index, wanted: Option<Scope>, n: nat, c: Index)
    requires n <= |d.keys|
  {
    && (forall h :: h in c.at ==> h == HeadIn(wanted, c.at[h]))
    && (forall h :: h in c.at ==> exists i :: 0 <= i < n && Gives(d, wanted, i, c.at[h]))
    && (forall i, note :: 0 <= i < n && Gives(d, wanted, i, note) ==> HeadIn(wanted, note) in c.at)
  }

  predicate Gives(d: Index, wanted: Option<Scope>, i: nat, note: Note)
    requires i < |d.keys|
  {
    var k := d.keys[i];
    Wants(wanted, k) && k in d.at && d.at[k] == note
  }

  lemma PutIsValid<K(!new), V>(d: Dict<K, V>, k: K, v: V)
    requires d.Valid()
    ensures d.Put(k, v).Valid()
  {
  }

  lemma GatheredGrows(d: Index, wanted: Option<Scope>, n: nat, before: Index, note: Note)
    requires n < |d.keys| && Gathered(d, wanted, n, before) && Gives(d, wanted, n, note)
    ensures Gathered(d, wanted, n + 1, before.Put(HeadIn(wanted, note), note))
  {
    hide HeadIn, Wants;
    var c := before.Put(HeadIn(wanted, note), note);
    forall h | h in c.at ensures exists i :: 0 <= i < n + 1 && Gives(d, wanted, i, c.at[h]) {
      if h == HeadIn(wanted, note) {
        assert Gives(d, wanted, n, c.at[h]);
      }
    }
  }

  lemma KeysAreIn<K(!new), V>(d: Dict<K, V>, i: nat)
    requires d.Valid() && i < |d.keys|
    ensures d.keys[i] in d.at
  {
  }

  lemma EmptyIsValid()
    ensures EMPTY.Valid()
  {
  }

  lemma GatheredSkips(d: Index, wanted: Option<Scope>, n: nat, before: Index)
    requires n < |d.keys| && Gathered(d, wanted, n, before) && !Wants(wanted, d.keys[n])
    ensures Gathered(d, wanted, n + 1, before)
  {
    hide HeadIn, Wants;
  }

  lemma GatheredNone(d: Index, wanted: Option<Scope>)
    ensures Gathered(d, wanted, 0, EMPTY)
  {
  }

  lemma {:induction false} CollectedHolds(d: Index, wanted: Option<Scope>, n: nat)
    requires d.Valid() && n <= |d.keys|
    ensures Collected(d, wanted, n).Valid() && Gathered(d, wanted, n, Collected(d, wanted, n))
  {
    hide HeadIn, Dict.Valid, Gathered, Wants;
    if n > 0 {
      CollectedHolds(d, wanted, n - 1);
      var k := d.keys[n - 1];
      KeysAreIn(d, n - 1);
      var before := Collected(d, wanted, n - 1);
      if Wants(wanted, k) {
        assert Gives(d, wanted, n - 1, d.at[k]);
        GatheredGrows(d, wanted, n - 1, before, d.at[k]);
        PutIsValid(before, HeadIn(wanted, d.at[k]), d.at[k]);
      } else {
        GatheredSkips(d, wanted, n - 1, before);
      }
    } else {
      EmptyIsValid();
      GatheredNone(d, wanted);
    }
  }

  function PoppedAll(d: Index, scope: Scope, notes: seq<Note>): Index
    decreases |notes|
  {
    if notes == [] then d else PoppedAll(Popped(d, scope, notes[0]), scope, notes[1..])
  }

  function Heads(m: map<Key, Note>): set<Key> {
    set k | k in m :: m[k].Head()
  }

  /** What a global cancel, or one of the wanted scope, returns. */
  function Harvest(d: Index, wanted: Option<Scope>): seq<Note>
    requires d.Valid()
  {
    CollectedHolds(d, wanted, |d.keys|);
    Collected(d, wanted, |d.keys|).Values()
  }
}
