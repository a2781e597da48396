/** The event store of the application shell (App.tsx): the list of events,
    loaded once from a storage slot and written back after every change. */
module App {
  import opened Types

  /** The parsed value of stored text, as far as loading distinguishes it. */
  datatype Json = JArray(items: seq<CountdownEvent>) | JNonArray

  /** The text a storage slot can hold: the empty string, text that
      `JSON.parse` rejects, or text that parses to a value. */
  datatype Blob = EmptyText | Malformed | WellFormed(value: Json)

  /** `JSON.stringify` of the event list. */
  function Stringify(events: seq<CountdownEvent>): Blob {
    WellFormed(JArray(events))
  }

  /** `JSON.parse`: `None` stands for the exception it throws. */
  function Parse(text: Blob): Option<Json> {
    match text
    case WellFormed(v) => Some(v)
    case _ => None
  }

  /** The initial list: a parsed array is taken as it is, and an absent or
      empty slot, unparseable text or a non-array value all give `[]`. */
  function LoadEvents(slot: Option<Blob>): (r: seq<CountdownEvent>)
    ensures slot == None || slot == Some(EmptyText) || slot == Some(Malformed) ==> r == []
    ensures slot == Some(WellFormed(JNonArray)) ==> r == []
    ensures r != [] ==> slot == Some(Stringify(r))
    ensures forall es :: slot == Some(Stringify(es)) ==> r == es
  {
    match slot
    case None => []
    case Some(text) =>
      if text == EmptyText then []
      else
        match Parse(text)
        case None => []
        case Some(parsed) => if parsed.JArray? then parsed.items else []
  }

  /** `prev.filter(e => e.id !== id)`: every record with that id removed,
      the others kept. */
  function WithoutId(es: seq<CountdownEvent>, id: string): (r: seq<CountdownEvent>)
    ensures |r| <= |es|
    ensures forall e :: e in r <==> e in es && e.id != id
    ensures forall e :: multiset(r)[e] == if e.id != id then multiset(es)[e] else 0
  {
    if es == [] then []
    else
      var head := if es[0].id != id then [es[0]] else [];
      assert es == [es[0]] + es[1..];
      assert multiset(es) == multiset{es[0]} + multiset(es[1..]);
      head + WithoutId(es[1..], id)
  }

  /** `a` is `b` with some elements left out, the rest in their order. */
  predicate IsSubsequence(a: seq<CountdownEvent>, b: seq<CountdownEvent>)
    decreases |b|
  {
    if a == [] then true
    else if b == [] then false
    else (a[0] == b[0] && IsSubsequence(a[1..], b[1..])) || IsSubsequence(a, b[1..])
  }

  /** The surviving records keep their relative order. */
  lemma {:induction false} WithoutIdKeepsOrder(es: seq<CountdownEvent>, id: string)
    ensures IsSubsequence(WithoutId(es, id), es)
    decreases |es|
  {
    if es != [] {
      WithoutIdKeepsOrder(es[1..], id);
      var rest := WithoutId(es[1..], id);
      if es[0].id != id {
        assert WithoutId(es, id) == [es[0]] + rest;
        assert ([es[0]] + rest)[1..] == rest;
      } else {
        assert WithoutId(es, id) == rest;
        if rest != [] {
          assert IsSubsequence(rest, es[1..]);
        }
      }
    }
  }

  /** Deleting an id no record carries changes nothing. */
  lemma {:induction false} WithoutAbsentId(es: seq<CountdownEvent>, id: string)
    requires forall e :: e in es ==> e.id != id
    ensures WithoutId(es, id) == es
    decreases |es|
  {
    if es != [] {
      WithoutAbsentId(es[1..], id);
      assert es == [es[0]] + es[1..];
    }
  }

  /** Deleting the same id twice is deleting it once. */
  lemma WithoutIdIdempotent(es: seq<CountdownEvent>, id: string)
    ensures WithoutId(WithoutId(es, id), id) == WithoutId(es, id)
  {
    WithoutAbsentId(WithoutId(es, id), id);
  }

  /** Adding a record and deleting its id restores the list, provided no
      record already in the list has that id. */
  lemma AddThenDelete(es: seq<CountdownEvent>, e: CountdownEvent)
    requires forall x :: x in es ==> x.id != e.id
    ensures WithoutId([e] + es, e.id) == es
  {
    assert ([e] + es)[1..] == es;
    WithoutAbsentId(es, e.id);
  }

  /** The application's event list and its storage slot
      (`localStorage['countdown_events']`). */
  class EventStore {
    var events: seq<CountdownEvent>
    var stored: Option<Blob>

    /** What the persist effect guarantees once it has run: the slot holds
        the serialisation of the current list. */
    ghost predicate Persisted()
      reads this
    {
      stored == Some(Stringify(events))
    }

    /** Mounting: the list is loaded from the slot once, then the persist
        effect writes it back, so a corrupt slot is replaced by `[]`. */
    constructor (slot: Option<Blob>)
      ensures events == LoadEvents(slot)
      ensures Persisted()
    {
      events := LoadEvents(slot);
      stored := slot;
      new;
      Persist();
    }

    /** The effect that runs whenever the list changes. */
    method Persist()
      modifies this`stored
      ensures stored == Some(Stringify(events))
    {
      stored := Some(Stringify(events));
    }

    /** `handleAddManual`: the new event goes first. */
    method AddManual(e: CountdownEvent)
      requires Persisted()
      modifies this
      ensures events == [e] + old(events)
      ensures Persisted()
    {
      events := [e] + events;
      Persist();
    }

    /** `handleDelete`: every event with the id is removed. */
    method Delete(id: string)
      requires Persisted()
      modifies this
      ensures events == WithoutId(old(events), id)
      ensures Persisted()
    {
      events := WithoutId(events, id);
      Persist();
    }

    /** `clearAll`: empties the list only when the user confirms the
        prompt; `confirmed` is the answer `window.confirm` gave. */
    method ClearAll(confirmed: bool)
      requires Persisted()
      modifies this
      ensures confirmed ==> events == []
      ensures !confirmed ==> events == old(events) && stored == old(stored)
      ensures Persisted()
    {
      if confirmed {
        events := [];
        Persist();
      }
    }
  }
}
