/** The scratchpad as a mutable object over the notes and counters tables. */
module NoteStores {
  import opened Base
  import opened Names
  import opened Notes

  /** A note as clients see it: `remaining` is absent when the note never expires. */
  datatype NoteView = NoteView(key: string, value: string, author: string, remaining: Option<int>)

  class NoteStore {
    var notes: map<string, Note>
    var counters: map<string, Counter>

    constructor ()
      ensures State() == Store(map[], map[])
    {
      notes, counters := map[], map[];
    }

    ghost function State(): Store
      reads this
    {
      Store(notes, counters)
    }

    method SetNote(key: string, value: string, author: string, ttl: int, now: int)
      modifies `notes
      ensures State() == Notes.Set(old(State()), key, value, author, ttl, now)
    {
      var expiresAt := None;
      if ttl > 0 { expiresAt := Some(now + ttl); }
      notes := notes[key := Note(value, Nullable(author), now, expiresAt)];
    }

    ghost predicate Readable(key: string, now: int)
      reads this
    {
      key in notes && (notes[key].expiresAt.None? || now < notes[key].expiresAt.value)
    }

    ghost predicate Shows(v: NoteView, now: int)
      reads this
    {
      && Readable(v.key, now) && v.value == notes[v.key].value
      && v.author == (if notes[v.key].author.None? then "" else notes[v.key].author.value)
      && v.remaining == (if notes[v.key].expiresAt.None? then None else Some(notes[v.key].expiresAt.value - now))
    }

    method GetNote(key: string, now: int) returns (found: Option<NoteView>)
      ensures found.Some? <==> Reads(State(), key, now).Found?
      ensures found.Some? ==> Reads(State(), key, now) == Found(found.value.value, found.value.author)
      ensures found.Some? ==> found.value.key == key && Shows(found.value, now)
      ensures Effective(State(), key, now) == if found.Some? then found.value.value else ""
    {
      if key !in notes { return None; }
      var n := notes[key];
      if n.expiresAt.Some? && n.expiresAt.value <= now { return None; }
      found := Some(NoteView(key, n.value, if n.author.None? then "" else n.author.value,
                             if n.expiresAt.None? then None else Some(SecsLeft(n.expiresAt.value, now))));
    }

    /** Every readable note, by key. */
    method ListNotes(now: int) returns (out: seq<NoteView>)
      ensures forall i, j :: 0 <= i < j < |out| ==> Less(out[i].key, out[j].key)
      ensures forall i :: 0 <= i < |out| ==> Shows(out[i], now)
      ensures forall k | Readable(k, now) :: exists i :: 0 <= i < |out| && out[i].key == k
    {
      var keys := SortedKeys(set k | k in notes && Alive(notes[k], now));
      out := [];
      for i := 0 to |keys|
        invariant |out| == i
        invariant forall j :: 0 <= j < i ==> out[j].key == keys[j] && Shows(out[j], now)
      {
        assert keys[i] in Elements(keys);
        var v := GetNote(keys[i], now);
        out := out + [v.value];
      }
      forall k | Readable(k, now) ensures exists i :: 0 <= i < |out| && out[i].key == k {
        assert k in Elements(keys);
        var i :| 0 <= i < |keys| && keys[i] == k;
        assert out[i].key == k;
      }
    }

    /** Deletes whatever is stored, expired or not. */
    method DeleteNote(key: string) returns (deleted: bool)
      modifies `notes
      ensures deleted <==> key in old(notes)
      ensures State() == Notes.Delete(old(State()), key)
    {
      deleted := key in notes;
      notes := notes - {key};
    }

    method SetNoteIf(key: string, expected: string, newValue: string, author: string, ttl: int, now: int)
      returns (swapped: bool)
      modifies `notes
      ensures swapped <==> old(match Reads(State(), key, now)
                               case Nothing => expected == ""
                               case Found(value, _) => expected == value)
      ensures State() == SetIf(old(State()), key, expected, newValue, author, ttl, now)
    {
      var expiresAt := None;
      if ttl > 0 { expiresAt := Some(now + ttl); }
      swapped := false;
      var current := "";
      if key !in notes {
      } else if notes[key].expiresAt.Some? && notes[key].expiresAt.value <= now {
      } else {
        current := notes[key].value;
      }
      if current != expected { return; }
      notes := notes[key := Note(newValue, Nullable(author), now, expiresAt)];
      swapped := true;
    }

    method IncrementCounter(name: string, step: int, now: int) returns (newValue: int)
      modifies `counters
      ensures State() == Increment(old(State()), name, step, now)
      ensures newValue == Count(State(), name) == old(Count(State(), name)) + step
    {
      if name in counters {
        counters := counters[name := Counter(counters[name].value + step, now)];
      } else {
        counters := counters[name := Counter(step, now)];
      }
      newValue := counters[name].value;
    }
  }
}
