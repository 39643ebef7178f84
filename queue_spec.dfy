/**
 * The list operations behind both offline queue implementations
 * (contexts/OfflineFormsProvider.tsx and hooks/useOfflineForms.ts): building a new
 * entry, `filter` by id, `map` replacing one entry's data, and what they do to ids.
 */
module QueueSpec {
  import opened Js
  import opened Text
  import opened Types
  import opened Sequences

  /** The entry saveOfflineForm appends: `id` is the first clock reading as a decimal string, `timestamp` the second. */
  function NewEntry(formData: Payload, idClock: nat, stampClock: nat): Entry {
    Entry(NatToString(idClock), Get(formData, "title"), formData, stampClock)
  }

  /** The clock reading a new entry's id was made from can be read back from the id. */
  lemma NewEntryIdEncodesClock(formData: Payload, idClock: nat, stampClock: nat)
    ensures DecimalValue(NewEntry(formData, idClock, stampClock).id) == idClock
    ensures NewEntry(formData, idClock, stampClock).data == formData
  {
    DecimalRoundTrip(idClock);
  }

  /** The delete filter: the entries whose id differs from `id`, in their order. */
  function Without(forms: seq<Entry>, id: string): (r: seq<Entry>)
    ensures |r| <= |forms|
    ensures forall e :: e in r <==> e in forms && e.id != id
    ensures forall e :: multiset(r)[e] == if e.id != id then multiset(forms)[e] else 0
  {
    if forms == [] then []
    else
      assert forms == [forms[0]] + forms[1..];
      if forms[0].id != id then [forms[0]] + Without(forms[1..], id)
      else Without(forms[1..], id)
  }

  predicate HasId(forms: seq<Entry>, id: string) {
    exists e :: e in forms && e.id == id
  }

  /** Delete keeps the other entries in their original order, and is the identity when the id is absent. */
  lemma {:induction false} WithoutKeepsOrder(forms: seq<Entry>, id: string)
    ensures IsSubsequence(Without(forms, id), forms)
    ensures !HasId(forms, id) ==> Without(forms, id) == forms
    ensures HasId(forms, id) ==> |Without(forms, id)| < |forms|
  {
    if forms != [] {
      WithoutKeepsOrder(forms[1..], id);
      assert forms == [forms[0]] + forms[1..];
      SubsequenceCons(forms[0], Without(forms[1..], id), forms[1..], forms[0].id != id);
      if !HasId(forms, id) {
        assert !HasId(forms[1..], id) by {
          forall e | e in forms[1..] ensures e.id != id { assert e in forms; }
        }
      }
      if HasId(forms, id) && forms[0].id != id {
        var e :| e in forms && e.id == id;
        assert e in forms[1..];
      }
    }
  }

  /** Deleting the same id twice leaves what deleting it once left. */
  lemma {:induction false} WithoutIdempotent(forms: seq<Entry>, id: string)
    ensures Without(Without(forms, id), id) == Without(forms, id)
  {
    WithoutKeepsOrder(Without(forms, id), id);
  }

  /** Deletes of two ids commute. */
  lemma {:induction false} WithoutCommutes(forms: seq<Entry>, a: string, b: string)
    ensures Without(Without(forms, a), b) == Without(Without(forms, b), a)
  {
    if forms != [] {
      WithoutCommutes(forms[1..], a, b);
    }
  }

  /** The update map: every entry with the id gets `newData` as its data; the others are copied. */
  function ReplaceData(forms: seq<Entry>, id: string, newData: Payload): (r: seq<Entry>)
    ensures |r| == |forms|
  {
    seq(|forms|, i requires 0 <= i < |forms| => if forms[i].id == id then forms[i].(data := newData) else forms[i])
  }

  /** Update touches only `data`, and only on matching entries; ids, titles, timestamps and order are kept. */
  lemma ReplaceDataKeepsShape(forms: seq<Entry>, id: string, newData: Payload)
    ensures forall i :: 0 <= i < |forms| ==>
      var e := ReplaceData(forms, id, newData)[i];
      e.id == forms[i].id && e.title == forms[i].title && e.timestamp == forms[i].timestamp
      && e.data == (if forms[i].id == id then newData else forms[i].data)
    ensures !HasId(forms, id) ==> ReplaceData(forms, id, newData) == forms
  {
  }

  /** Deleting an entry after updating it is the same as deleting it. */
  lemma {:induction false} DeleteAfterUpdate(forms: seq<Entry>, id: string, newData: Payload)
    ensures Without(ReplaceData(forms, id, newData), id) == Without(forms, id)
  {
    if forms != [] {
      assert ReplaceData(forms, id, newData)[1..] == ReplaceData(forms[1..], id, newData);
      DeleteAfterUpdate(forms[1..], id, newData);
    }
  }

  /** The last update of an id wins. */
  lemma UpdateTwice(forms: seq<Entry>, id: string, d1: Payload, d2: Payload)
    ensures ReplaceData(ReplaceData(forms, id, d1), id, d2) == ReplaceData(forms, id, d2)
  {
  }

  /** No two entries share an id. */
  predicate IdsUnique(forms: seq<Entry>) {
    forall i, j :: 0 <= i < j < |forms| ==> forms[i].id != forms[j].id
  }

  /** Every id reads back as a clock value earlier than `clock`. */
  predicate IssuedBefore(forms: seq<Entry>, clock: nat) {
    forall i :: 0 <= i < |forms| ==> DecimalValue(forms[i].id) < clock
  }

  /** A save whose clock is later than every id already issued keeps ids unique, and the bound moves past it. */
  lemma SaveKeepsIdsUnique(forms: seq<Entry>, formData: Payload, idClock: nat, stampClock: nat)
    requires IdsUnique(forms) && IssuedBefore(forms, idClock)
    ensures IdsUnique(forms + [NewEntry(formData, idClock, stampClock)])
    ensures IssuedBefore(forms + [NewEntry(formData, idClock, stampClock)], idClock + 1)
  {
    NewEntryIdEncodesClock(formData, idClock, stampClock);
    var r := forms + [NewEntry(formData, idClock, stampClock)];
    forall i, j | 0 <= i < j < |r| ensures r[i].id != r[j].id {
      if j == |forms| {
        assert DecimalValue(r[i].id) < idClock;
      }
    }
  }

  /** Two saves that read the same clock produce the same id, so uniqueness needs strictly increasing clocks. */
  lemma SameClockSameId(forms: seq<Entry>, d1: Payload, d2: Payload, idClock: nat, s1: nat, s2: nat)
    ensures !IdsUnique(forms + [NewEntry(d1, idClock, s1), NewEntry(d2, idClock, s2)])
  {
    var r := forms + [NewEntry(d1, idClock, s1), NewEntry(d2, idClock, s2)];
    assert r[|forms|].id == r[|forms| + 1].id;
  }

  /** Saves at distinct clock readings give entries with distinct ids. */
  lemma DistinctClocksDistinctIds(d1: Payload, d2: Payload, c1: nat, c2: nat, s1: nat, s2: nat)
    requires c1 != c2
    ensures NewEntry(d1, c1, s1).id != NewEntry(d2, c2, s2).id
  {
    if NatToString(c1) == NatToString(c2) {
      NatToStringInjective(c1, c2);
    }
  }

  lemma TailIdsUnique(forms: seq<Entry>)
    requires forms != [] && IdsUnique(forms)
    ensures IdsUnique(forms[1..])
  {
    var rest := forms[1..];
    forall i, j | 0 <= i < j < |rest| ensures rest[i].id != rest[j].id {
      assert rest[i] == forms[i + 1] && rest[j] == forms[j + 1];
    }
  }

  lemma ConsIdsUnique(e: Entry, w: seq<Entry>)
    requires IdsUnique(w) && forall x :: x in w ==> x.id != e.id
    ensures IdsUnique([e] + w)
  {
    var r := [e] + w;
    forall i, j | 0 <= i < j < |r| ensures r[i].id != r[j].id {
      assert r[j] == w[j - 1];
      if i > 0 {
        assert r[i] == w[i - 1];
      }
    }
  }

  /** Delete keeps ids unique. */
  lemma {:induction false} DeleteKeepsIdsUnique(forms: seq<Entry>, id: string)
    requires IdsUnique(forms)
    ensures IdsUnique(Without(forms, id))
  {
    if forms != [] {
      var rest := forms[1..];
      TailIdsUnique(forms);
      DeleteKeepsIdsUnique(rest, id);
      var w := Without(rest, id);
      if forms[0].id != id {
        forall x | x in w ensures x.id != forms[0].id {
          var k :| 0 <= k < |rest| && rest[k] == x;
          assert forms[k + 1] == x;
        }
        ConsIdsUnique(forms[0], w);
      }
    }
  }

  /** Update keeps ids unique. */
  lemma UpdateKeepsIdsUnique(forms: seq<Entry>, id: string, newData: Payload)
    requires IdsUnique(forms)
    ensures IdsUnique(ReplaceData(forms, id, newData))
  {
    ReplaceDataKeepsShape(forms, id, newData);
  }
}
