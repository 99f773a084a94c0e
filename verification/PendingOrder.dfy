/** The order of the pending notes: a new one comes last, a cancel moves none, and
    notes come back in the order of their first keys. */
module PendingOrder {
  import opened Common
  import opened PendingIndex
  import opened PendingVoiceLaws

  /** `x` comes before `y`. */
  predicate Comes<T(==)>(s: seq<T>, x: T, y: T) {
    exists i, j :: 0 <= i < j < |s| && s[i] == x && s[j] == y
  }

  lemma ComesFirst<T>(s: seq<T>, x: T, y: T)
    requires s != []
    ensures Comes(s, x, y) <==> (s[0] == x && y in s[1..]) || Comes(s[1..], x, y)
  {
    var rest := s[1..];
    if Comes(s, x, y) {
      var i, j :| 0 <= i < j < |s| && s[i] == x && s[j] == y;
      assert rest[j - 1] == y;
      if i > 0 {
        assert rest[i - 1] == x;
      }
    }
    if s[0] == x && y in rest {
      var j :| 0 <= j < |rest| && rest[j] == y;
      assert s[0] == x && s[j + 1] == y;
    }
    if Comes(rest, x, y) {
      var i, j :| 0 <= i < j < |rest| && rest[i] == x && rest[j] == y;
      assert s[i + 1] == x && s[j + 1] == y;
    }
  }

  lemma NothingComes<T>(x: T, y: T)
    ensures !Comes([], x, y)
  {
  }

  /** Taking a key out leaves the others in their order. */
  lemma {:induction false} WithoutKeepsOrder<T(!new)>(s: seq<T>, gone: T, x: T, y: T)
    ensures Comes(Without(s, gone), x, y) <==> Comes(s, x, y) && x != gone && y != gone
  {
    hide Comes;
    if s == [] {
      NothingComes(x, y);
    } else {
      var rest := Without(s[1..], gone);
      WithoutKeepsOrder(s[1..], gone, x, y);
      WithoutHas(s[1..], gone);
      ComesFirst(s, x, y);
      if s[0] == gone {
        assert Without(s, gone) == rest;
      } else {
        assert Without(s, gone) == [s[0]] + rest && ([s[0]] + rest)[1..] == rest;
        ComesFirst([s[0]] + rest, x, y);
      }
    }
  }

  /** A note seeded under two unused ids comes after every other, its voice
      message first. */
  lemma SeedComesLast(d: Index, scope: Scope, voice: string, status: string)
    requires d.Valid() && voice != status && Key(scope, voice) !in d.at && Key(scope, status) !in d.at
    ensures Seeded(d, scope, voice, status).keys == d.keys + [Key(scope, voice), Key(scope, status)]
  {
  }

  /** A cancel takes out the note's two keys and moves no other. */
  lemma CancelKeepsOrder(d: Index, scope: Scope, reply: string, x: Key, y: Key)
    requires d.Valid() && Consistent(d.at) && Key(scope, reply) in d.at
    ensures Comes(Cancelled(d, scope, reply).keys, x, y)
            <==> Comes(d.keys, x, y)
                 && x !in d.at[Key(scope, reply)].Keys() && y !in d.at[Key(scope, reply)].Keys()
  {
    hide Comes, Dict.Valid;
    var note := d.at[Key(scope, reply)];
    NoteAt(d.at, Key(scope, reply));
    var first := d.Pop(Key(scope, note.voice));
    WithoutKeepsOrder(d.keys, Key(scope, note.voice), x, y);
    WithoutKeepsOrder(first.keys, Key(scope, note.status.value), x, y);
  }

  // ---- what comes back ----------------------------------------------------------

  /** The entry at `i` is the first one wanted of its note. */
  predicate FirstOf(d: Index, wanted: Option<Scope>, i: nat, note: Note)
    requires i < |d.keys|
  {
    Gives(d, wanted, i, note) && forall q :: 0 <= q < i ==> !Gives(d, wanted, q, note)
  }

  /** `p` leads from the notes collected so far to their first entries, in order. */
  ghost predicate Trail(d: Index, wanted: Option<Scope>, n: nat, c: Index, p: seq<nat>)
    requires n <= |d.keys|
  {
    && |p| == |c.keys|
    && (forall i :: 0 <= i < |p| ==>
          p[i] < n && c.keys[i] in c.at && c.keys[i] == c.at[c.keys[i]].Head()
          && FirstOf(d, wanted, p[i], c.at[c.keys[i]]))
    && (forall i, j :: 0 <= i < j < |p| ==> p[i] < p[j])
  }

  lemma TrailGrows(d: Index, wanted: Option<Scope>, n: nat, before: Index, p: seq<nat>, note: Note)
    requires d.Valid() && Consistent(d.at) && n < |d.keys| && Trail(d, wanted, n, before, p) && before.Valid()
    requires Gives(d, wanted, n, note) && note.Head() !in before.at
    requires forall q :: 0 <= q < n ==> !Gives(d, wanted, q, note)
    ensures Trail(d, wanted, n + 1, before.Put(note.Head(), note), p + [n])
  {
    hide Wants, Note.Head, Consistent;
    var c := before.Put(note.Head(), note);
    forall i | 0 <= i < |p|
      ensures c.keys[i] in c.at && c.at[c.keys[i]] == before.at[before.keys[i]]
    {
      assert before.keys[i] in before.keys;
    }
  }

  lemma TrailStays(d: Index, wanted: Option<Scope>, n: nat, before: Index, p: seq<nat>, note: Note)
    requires n < |d.keys| && Trail(d, wanted, n, before, p)
    requires note.Head() in before.at && before.at[note.Head()] == note
    ensures Trail(d, wanted, n + 1, before.Put(note.Head(), note), p)
  {
    hide FirstOf, Note.Head;
  }

  /** Every collected note is the one its head leads to in the index. */
  lemma CollectedAgree(d: Index, wanted: Option<Scope>, n: nat, h: Key)
    requires d.Valid() && Consistent(d.at) && n <= |d.keys| && h in Collected(d, wanted, n).at
    ensures h in d.at && Collected(d, wanted, n).at[h] == d.at[h]
  {
    hide Collected, Consistent, Note.Keys, Wants, HeadIn, Note.Head;
    CollectedHolds(d, wanted, n);
    var c := Collected(d, wanted, n);
    var i :| 0 <= i < n && Gives(d, wanted, i, c.at[h]);
    WantedHead(d, wanted, d.keys[i]);
  }

  lemma NotGivenBefore(d: Index, wanted: Option<Scope>, n: nat, note: Note)
    requires d.Valid() && Consistent(d.at) && n < |d.keys| && Gives(d, wanted, n, note)
    requires note.Head() !in Collected(d, wanted, n).at
    ensures forall q :: 0 <= q < n ==> !Gives(d, wanted, q, note)
  {
    hide Collected, Consistent, Note.Keys, Wants, HeadIn, Note.Head;
    CollectedHolds(d, wanted, n);
    forall q | 0 <= q < n
      ensures !Gives(d, wanted, q, note)
    {
      if Gives(d, wanted, q, note) {
        WantedHead(d, wanted, d.keys[q]);
      }
    }
  }

  lemma {:induction false} CollectedInOrder(d: Index, wanted: Option<Scope>, n: nat) returns (p: seq<nat>)
    requires d.Valid() && Consistent(d.at) && n <= |d.keys|
    ensures Trail(d, wanted, n, Collected(d, wanted, n), p)
  {
    hide Consistent, Wants, HeadIn, Trail, Dict.Put, Dict.Valid, Gathered, Note.Head;
    if n == 0 {
      p := [];
      NoTrail(d, wanted);
    } else {
      var m := n - 1;
      p := CollectedInOrder(d, wanted, m);
      KeysAreIn(d, m);
      var k, before := d.keys[m], Collected(d, wanted, m);
      CollectedHolds(d, wanted, m);
      if Wants(wanted, k) {
        var note := d.at[k];
        WantedHead(d, wanted, k);
        if note.Head() in before.at {
          CollectedAgree(d, wanted, m, note.Head());
          TrailStays(d, wanted, m, before, p, note);
        } else {
          NotGivenBefore(d, wanted, m, note);
          TrailGrows(d, wanted, m, before, p, note);
          p := p + [m];
        }
      } else {
        TrailSkips(d, wanted, m, before, p);
      }
    }
  }

  lemma NoTrail(d: Index, wanted: Option<Scope>)
    ensures Trail(d, wanted, 0, EMPTY, [])
  {
  }

  lemma TrailSkips(d: Index, wanted: Option<Scope>, n: nat, before: Index, p: seq<nat>)
    requires n < |d.keys| && Trail(d, wanted, n, before, p)
    ensures Trail(d, wanted, n + 1, before, p)
  {
    hide FirstOf, Note.Head;
  }

  /** The notes a cancel returns come in the order of their first keys in the
      index. */
  lemma HarvestIsInOrder(d: Index, wanted: Option<Scope>) returns (p: seq<nat>)
    requires d.Valid() && Consistent(d.at)
    ensures |p| == |Harvest(d, wanted)|
    ensures forall i :: 0 <= i < |p| ==> p[i] < |d.keys| && FirstOf(d, wanted, p[i], Harvest(d, wanted)[i])
    ensures forall i, j :: 0 <= i < j < |p| ==> p[i] < p[j]
  {
    hide Consistent, FirstOf, Collected;
    CollectedHolds(d, wanted, |d.keys|);
    p := CollectedInOrder(d, wanted, |d.keys|);
  }
}
