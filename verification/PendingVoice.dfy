/** The pending voice notes of the smoke suite's fake platform, updated in place. */
module PendingVoice {
  import opened Common
  import opened PendingIndex
  import opened PendingVoiceLaws

  class FakePlatform {
    const name: string
    var pending: Index

    ghost predicate Valid()
      reads this
    {
      pending.Valid()
    }

    constructor (name: string)
      ensures Valid() && pending == EMPTY && this.name == name
    {
      this.name := name;
      pending := EMPTY;
    }

    method SeedPendingVoice(chat: string, voice: string, status: string)
      requires Valid()
      modifies `pending
      ensures Valid() && pending == Seeded(old(pending), Scope(name, chat), voice, status)
    {
      hide Dict.Valid, Dict.Put;
      var scope := Scope(name, chat);
      var note := Note(scope, voice, Some(status), {voice, status});
      PutIsValid(pending, Key(scope, voice), note);
      pending := pending.Put(Key(scope, voice), note);
      PutIsValid(pending, Key(scope, status), note);
      pending := pending.Put(Key(scope, status), note);
    }

    /** Forget both keys of a note, where they are. */
    method Forget(scope: Scope, note: Note)
      requires Valid()
      modifies `pending
      ensures Valid() && pending == Popped(old(pending), scope, note)
    {
      PopIsValid(pending, Key(scope, note.voice));
      pending := pending.Pop(Key(scope, note.voice));
      if note.status.Some? {
        PopIsValid(pending, Key(scope, note.status.value));
        pending := pending.Pop(Key(scope, note.status.value));
      }
    }

    method CancelPendingVoice(scope: Scope, reply: string) returns (cancelled: Option<Note>)
      requires Valid()
      modifies `pending
      ensures Valid() && pending == Cancelled(old(pending), scope, reply)
      ensures cancelled.Some? <==> Key(scope, reply) in old(pending).at
      ensures cancelled.Some? ==>
                var note := old(pending).at[Key(scope, reply)];
                cancelled.value == note.(deleteIds :=
                  if note.status == Some(reply) then {reply}
                  else {note.voice} + if note.status.Some? then {note.status.value} else {})
    {
      if Key(scope, reply) !in pending.at {
        return None;
      }
      var note := pending.at[Key(scope, reply)];
      Forget(scope, note);
      var ids := {note.voice} + if note.status.Some? then {note.status.value} else {};
      if note.status == Some(reply) {
        ids := {reply};
      }
      return Some(note.(deleteIds := ids));
    }

    /** The notes of the wanted scope, or all, each once. */
    method Collect(wanted: Option<Scope>) returns (found: Index)
      requires Valid()
      ensures found == Collected(pending, wanted, |pending.keys|)
    {
      found := EMPTY;
      for i := 0 to |pending.keys|
        invariant found == Collected(pending, wanted, i)
      {
        var k := pending.keys[i];
        assert k in pending.keys;
        if Wants(wanted, k) {
          found := found.Put(HeadIn(wanted, pending.at[k]), pending.at[k]);
        }
      }
      CollectedHolds(pending, wanted, |pending.keys|);
    }

    method CancelAllPendingVoices() returns (results: seq<Note>)
      requires Valid()
      modifies `pending
      ensures Valid() && pending == EMPTY
      ensures results == Harvest(old(pending), None)
    {
      var found := Collect(None);
      CollectedHolds(pending, None, |pending.keys|);
      results := found.Values();
      pending := EMPTY;
    }

    method CancelPendingVoicesInScope(scope: Scope) returns (results: seq<Note>)
      requires Valid()
      modifies `pending
      ensures Valid() && pending == PoppedAll(old(pending), scope, results)
      ensures results == Harvest(old(pending), Some(scope))
    {
      var found := Collect(Some(scope));
      CollectedHolds(pending, Some(scope), |pending.keys|);
      results := found.Values();
      for i := 0 to |results|
        invariant Valid()
        invariant PoppedAll(pending, scope, results[i..]) == PoppedAll(old(pending), scope, results)
      {
        assert results[i..][1..] == results[i + 1..];
        Forget(scope, results[i]);
      }
    }

    /** How many notes are pending: half the keys, as long as every note has its
        two. */
    function PendingVoiceCount(): (n: nat)
      reads this
      ensures Consistent(pending.at) ==> 2 * n == |pending.at|
    {
      CountWhenConsistent(pending.at);
      |Heads(pending.at)|
    }
  }
}
