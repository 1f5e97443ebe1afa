/** The on-screen debug table (mDebugInfo) both snapshots keep: a Dictionary from a label
    to the text shown after it. Display overwrites the text of a label already present and
    adds a new label at the end of the table otherwise; the table is listed in that order. */
module DebugInfo {

  /** The labels in the order they were first added, and the text of each label. */
  datatype Table = Table(order: seq<string>, entries: map<string, string>)

  const Empty := Table([], map[])

  /** Every label is listed exactly once, and exactly the labels with a text are listed. */
  ghost predicate WellFormed(t: Table) {
    (forall k :: k in t.entries <==> k in t.order) &&
    (forall i, j :: 0 <= i < j < |t.order| ==> t.order[i] != t.order[j])
  }

  /** Display(key, text): replace the text of a present label, or add the label at the end. */
  function Upsert(t: Table, key: string, text: string): (u: Table)
    requires WellFormed(t)
    ensures WellFormed(u)
    ensures key in u.entries && u.entries[key] == text
    ensures forall k :: k != key ==> (k in u.entries <==> k in t.entries)
    ensures forall k :: k != key && k in t.entries ==> u.entries[k] == t.entries[k]
    ensures key in t.entries ==> u.order == t.order
    ensures key !in t.entries ==> u.order == t.order + [key]
  {
    if key in t.entries then Table(t.order, t.entries[key := text])
    else Table(t.order + [key], t.entries[key := text])
  }

  /** Displaying the same text twice is the same as displaying it once. */
  lemma UpsertIdempotent(t: Table, key: string, text: string)
    requires WellFormed(t)
    ensures Upsert(Upsert(t, key, text), key, text) == Upsert(t, key, text)
  {
  }

  /** A later Display of a label wins and does not move the label. */
  lemma UpsertOverwrites(t: Table, key: string, a: string, b: string)
    requires WellFormed(t)
    ensures Upsert(Upsert(t, key, a), key, b) == Upsert(t, key, b)
  {
    var u := Upsert(t, key, a);
    assert u.entries[key := b] == t.entries[key := b];
  }

  /** The labels listed after a run of Displays on an empty table: each label once, in the
      order of its first Display. */
  function FirstOccurrences(keys: seq<string>): (r: seq<string>)
    ensures forall k :: k in r <==> k in keys
    ensures forall i, j :: 0 <= i < j < |r| ==> r[i] != r[j]
  {
    if keys == [] then []
    else
      var r0 := FirstOccurrences(keys[..|keys| - 1]);
      var k := keys[|keys| - 1];
      assert forall x :: x in keys <==> x in keys[..|keys| - 1] || x == k;
      if k in r0 then r0 else r0 + [k]
  }

  /** Apply Display for each label in turn, the i-th label with texts[i]. */
  function UpsertAll(t: Table, keys: seq<string>, texts: seq<string>): Table
    requires WellFormed(t) && |keys| == |texts|
    ensures WellFormed(UpsertAll(t, keys, texts))
  {
    if keys == [] then t
    else Upsert(UpsertAll(t, keys[..|keys| - 1], texts[..|texts| - 1]), keys[|keys| - 1], texts[|texts| - 1])
  }

  /** Starting from an empty table, the listing order is the order of first Display. */
  lemma {:induction false} UpsertAllOrder(keys: seq<string>, texts: seq<string>)
    requires |keys| == |texts|
    ensures UpsertAll(Empty, keys, texts).order == FirstOccurrences(keys)
  {
    if keys != [] {
      var k0, t0 := keys[..|keys| - 1], texts[..|texts| - 1];
      UpsertAllOrder(k0, t0);
      var u0 := UpsertAll(Empty, k0, t0);
      assert keys[|keys| - 1] in u0.entries <==> keys[|keys| - 1] in FirstOccurrences(k0);
    }
  }
}
