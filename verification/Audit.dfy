/**
 * The audit trail: entries in a key-order-insensitive canonical form, chained by hashes. The hash is
 * modelled as a free constructor of what it digests, so it is injective and nothing else.
 */
module Audit {
  import opened Common

  type Id = string

  // ---------------------------------------------------------------- JSON values

  datatype Json = Null | Bool(b: bool) | Num(n: int) | Str(s: string) | Arr(items: Items) | Obj(fields: Fields)

  datatype Items = NoItems | Item(head: Json, tail: Items)

  datatype Fields = NoFields | Field(key: string, value: Json, rest: Fields)

  /** What a value means: an object is a map, whatever order its keys are written in. */
  datatype Meaning =
    | MNull | MBool(b: bool) | MNum(n: int) | MStr(s: string) | MArr(items: seq<Meaning>) | MObj(fields: map<string, Meaning>)

  function MeaningOf(v: Json): Meaning {
    match v
    case Null => MNull
    case Bool(b) => MBool(b)
    case Num(n) => MNum(n)
    case Str(s) => MStr(s)
    case Arr(items) => MArr(ItemsMeaning(items))
    case Obj(fields) => MObj(FieldsMeaning(fields))
  }

  function ItemsMeaning(items: Items): seq<Meaning> {
    match items
    case NoItems => []
    case Item(head, tail) => [MeaningOf(head)] + ItemsMeaning(tail)
  }

  function FieldsMeaning(fields: Fields): map<string, Meaning> {
    match fields
    case NoFields => map[]
    case Field(key, value, rest) => FieldsMeaning(rest)[key := MeaningOf(value)]
  }

  predicate HasKey(fields: Fields, key: string) {
    fields.Field? && (fields.key == key || HasKey(fields.rest, key))
  }

  /** Objects have no repeated key, at any depth. */
  predicate WellFormed(v: Json) {
    match v
    case Arr(items) => ItemsWellFormed(items)
    case Obj(fields) => FieldsWellFormed(fields)
    case _ => true
  }

  predicate ItemsWellFormed(items: Items) {
    match items
    case NoItems => true
    case Item(head, tail) => WellFormed(head) && ItemsWellFormed(tail)
  }

  predicate FieldsWellFormed(fields: Fields) {
    match fields
    case NoFields => true
    case Field(key, value, rest) => WellFormed(value) && !HasKey(rest, key) && FieldsWellFormed(rest)
  }

  // ---------------------------------------------------------------- the stable form

  /** Dictionary order on code units. */
  predicate Before(a: string, b: string) {
    b != [] && (a == [] || a[0] < b[0] || (a[0] == b[0] && Before(a[1..], b[1..])))
  }

  function Insert(key: string, value: Json, fields: Fields): Fields {
    match fields
    case NoFields => Field(key, value, NoFields)
    case Field(k, v, rest) => if Before(key, k) then Field(key, value, fields) else Field(k, v, Insert(key, value, rest))
  }

  /** `stable`: object keys sorted at every depth, arrays left in order. */
  function Stable(v: Json): Json {
    match v
    case Arr(items) => Arr(StableItems(items))
    case Obj(fields) => Obj(StableFields(fields))
    case _ => v
  }

  function StableItems(items: Items): Items {
    match items
    case NoItems => NoItems
    case Item(head, tail) => Item(Stable(head), StableItems(tail))
  }

  function StableFields(fields: Fields): Fields {
    match fields
    case NoFields => NoFields
    case Field(key, value, rest) => Insert(key, Stable(value), StableFields(rest))
  }

  lemma {:induction false} BeforeIrreflexive(a: string)
    ensures !Before(a, a)
  {
    if a != [] {
      BeforeIrreflexive(a[1..]);
    }
  }

  lemma {:induction false} BeforeTotal(a: string, b: string)
    ensures Before(a, b) || Before(b, a) || a == b
  {
    if a != [] && b != [] && a[0] == b[0] {
      BeforeTotal(a[1..], b[1..]);
      if a[1..] == b[1..] {
        assert a == [a[0]] + a[1..] && b == [b[0]] + b[1..];
      }
    }
  }

  lemma {:induction false} BeforeTransitive(a: string, b: string, c: string)
    requires Before(a, b) && Before(b, c)
    ensures Before(a, c)
  {
    if a != [] && a[0] == b[0] == c[0] {
      BeforeTransitive(a[1..], b[1..], c[1..]);
    }
  }

  /** Keys strictly ascending. */
  predicate Ascending(fields: Fields) {
    fields.NoFields? || fields.rest.NoFields? || (Before(fields.key, fields.rest.key) && Ascending(fields.rest))
  }

  /** Sorted at every depth. */
  predicate Sorted(v: Json) {
    match v
    case Arr(items) => SortedItems(items)
    case Obj(fields) => Ascending(fields) && SortedFields(fields)
    case _ => true
  }

  predicate SortedItems(items: Items) {
    match items
    case NoItems => true
    case Item(head, tail) => Sorted(head) && SortedItems(tail)
  }

  predicate SortedFields(fields: Fields) {
    match fields
    case NoFields => true
    case Field(_, value, rest) => Sorted(value) && SortedFields(rest)
  }

  lemma {:induction false} InsertMeaning(key: string, value: Json, fields: Fields)
    requires !HasKey(fields, key)
    ensures FieldsMeaning(Insert(key, value, fields)) == FieldsMeaning(fields)[key := MeaningOf(value)]
    ensures forall k :: HasKey(Insert(key, value, fields), k) <==> k == key || HasKey(fields, k)
  {
    match fields
    case NoFields =>
    case Field(k, v, rest) =>
      if !Before(key, k) {
        InsertMeaning(key, value, rest);
      }
  }

  lemma {:induction false} InsertSorted(key: string, value: Json, fields: Fields)
    requires !HasKey(fields, key) && Ascending(fields) && SortedFields(fields) && Sorted(value)
    ensures Ascending(Insert(key, value, fields)) && SortedFields(Insert(key, value, fields))
    ensures Insert(key, value, fields).Field?
    ensures Insert(key, value, fields).key == key || (fields.Field? && Insert(key, value, fields).key == fields.key)
  {
    match fields
    case NoFields =>
    case Field(k, v, rest) =>
      if !Before(key, k) {
        BeforeTotal(key, k);
        InsertSorted(key, value, rest);
      }
  }

  /** Sorting keys changes no meaning and leaves everything sorted. */
  lemma {:induction false} StableMeans(v: Json)
    requires WellFormed(v)
    ensures MeaningOf(Stable(v)) == MeaningOf(v) && Sorted(Stable(v))
  {
    match v
    case Arr(items) => StableItemsMean(items);
    case Obj(fields) => StableFieldsMean(fields);
    case _ =>
  }

  lemma {:induction false} StableItemsMean(items: Items)
    requires ItemsWellFormed(items)
    ensures ItemsMeaning(StableItems(items)) == ItemsMeaning(items) && SortedItems(StableItems(items))
  {
    match items
    case NoItems =>
    case Item(head, tail) =>
      StableMeans(head);
      StableItemsMean(tail);
  }

  lemma {:induction false} StableFieldsMean(fields: Fields)
    requires FieldsWellFormed(fields)
    ensures FieldsMeaning(StableFields(fields)) == FieldsMeaning(fields)
    ensures Ascending(StableFields(fields)) && SortedFields(StableFields(fields))
    ensures forall k :: HasKey(StableFields(fields), k) <==> HasKey(fields, k)
  {
    match fields
    case NoFields =>
    case Field(key, value, rest) =>
      StableMeans(value);
      StableFieldsMean(rest);
      InsertMeaning(key, Stable(value), StableFields(rest));
      InsertSorted(key, Stable(value), StableFields(rest));
  }

  lemma {:induction false} KeysOf(fields: Fields, key: string)
    ensures key in FieldsMeaning(fields) <==> HasKey(fields, key)
  {
    if fields.Field? {
      KeysOf(fields.rest, key);
    }
  }

  /** In an ascending list the first key comes before every other. */
  lemma {:induction false} FirstIsLeast(fields: Fields, key: string)
    requires fields.Field? && Ascending(fields) && HasKey(fields.rest, key)
    ensures Before(fields.key, key)
  {
    if fields.rest.key != key {
      FirstIsLeast(fields.rest, key);
      BeforeTransitive(fields.key, fields.rest.key, key);
    }
  }

  lemma {:induction false} FirstKeyNotAgain(fields: Fields)
    requires fields.Field? && Ascending(fields)
    ensures !HasKey(fields.rest, fields.key)
  {
    if HasKey(fields.rest, fields.key) {
      FirstIsLeast(fields, fields.key);
      BeforeIrreflexive(fields.key);
    }
  }

  /** Sorted values that mean the same are the same. */
  lemma {:induction false} SortedIsCanonical(v: Json, w: Json)
    requires Sorted(v) && Sorted(w) && MeaningOf(v) == MeaningOf(w)
    ensures v == w
  {
    match v
    case Arr(items) => SortedItemsCanonical(items, w.items);
    case Obj(fields) => SortedFieldsCanonical(fields, w.fields);
    case _ =>
  }

  lemma {:induction false} SortedItemsCanonical(a: Items, b: Items)
    requires SortedItems(a) && SortedItems(b) && ItemsMeaning(a) == ItemsMeaning(b)
    ensures a == b
  {
    match a
    case NoItems =>
    case Item(head, tail) =>
      assert b.Item? && ItemsMeaning(a)[0] == ItemsMeaning(b)[0];
      SortedIsCanonical(head, b.head);
      assert ItemsMeaning(a)[1..] == ItemsMeaning(tail) && ItemsMeaning(b)[1..] == ItemsMeaning(b.tail);
      SortedItemsCanonical(tail, b.tail);
  }

  lemma {:induction false} SameFirstKey(a: Fields, b: Fields)
    requires a.Field? && b.Field? && Ascending(a) && Ascending(b) && FieldsMeaning(a) == FieldsMeaning(b)
    ensures a.key == b.key
  {
    KeysOf(a, b.key);
    KeysOf(b, a.key);
    KeysOf(a, a.key);
    KeysOf(b, b.key);
    if a.key != b.key {
      FirstIsLeast(a, b.key);
      FirstIsLeast(b, a.key);
      BeforeTransitive(a.key, b.key, a.key);
      BeforeIrreflexive(a.key);
    }
  }

  lemma {:induction false} OnlyEmptyMeansNothing(fields: Fields)
    ensures FieldsMeaning(fields) == map[] <==> fields.NoFields?
  {
    if fields.Field? {
      KeysOf(fields, fields.key);
    }
  }

  lemma {:induction false} SortedFieldsCanonical(a: Fields, b: Fields)
    requires Ascending(a) && Ascending(b) && SortedFields(a) && SortedFields(b)
    requires FieldsMeaning(a) == FieldsMeaning(b)
    ensures a == b
  {
    OnlyEmptyMeansNothing(a);
    OnlyEmptyMeansNothing(b);
    if a.Field? {
      SameFirstKey(a, b);
      FirstKeyNotAgain(a);
      FirstKeyNotAgain(b);
      KeysOf(a.rest, a.key);
      KeysOf(b.rest, b.key);
      assert FieldsMeaning(a)[a.key] == FieldsMeaning(b)[b.key];
      SortedIsCanonical(a.value, b.value);
      assert FieldsMeaning(a.rest) == FieldsMeaning(a) - {a.key};
      assert FieldsMeaning(b.rest) == FieldsMeaning(b) - {b.key};
      SortedFieldsCanonical(a.rest, b.rest);
    }
  }

  /** Two values have the same stable form exactly when they mean the same: when they differ only in key order. */
  lemma {:induction false} StableIffSameMeaning(v: Json, w: Json)
    requires WellFormed(v) && WellFormed(w)
    ensures Stable(v) == Stable(w) <==> MeaningOf(v) == MeaningOf(w)
  {
    StableMeans(v);
    StableMeans(w);
    if MeaningOf(v) == MeaningOf(w) {
      SortedIsCanonical(Stable(v), Stable(w));
    }
  }

  // ---------------------------------------------------------------- the chain

  /** What is hashed of an entry; an absent before or after is null. */
  datatype Entry = Entry(tenant: Id, action: string, entityType: string, entityId: Id,
                         actor: Option<Id>, device: Option<Id>, before: Json, after: Json)

  datatype Hash = Digest(prev: Option<Hash>, text: Entry)

  datatype Row = Row(id: int, entry: Entry, prevHash: Option<Hash>, rowHash: Hash)

  function Canonical(e: Entry): Entry {
    e.(before := Stable(e.before), after := Stable(e.after))
  }

  /** The stored row may come back with its object keys in another order. */
  predicate SameEntry(a: Entry, b: Entry) {
    && a.(before := Null, after := Null) == b.(before := Null, after := Null)
    && WellFormed(a.before) && WellFormed(b.before) && MeaningOf(a.before) == MeaningOf(b.before)
    && WellFormed(a.after) && WellFormed(b.after) && MeaningOf(a.after) == MeaningOf(b.after)
  }

  function TipOf(rows: seq<Row>): Option<Hash> {
    if rows == [] then None else Some(rows[|rows| - 1].rowHash)
  }

  /** `recordWith`: append one row whose hash covers the previous hash and the entry; `stored` is what the table keeps. */
  function Recorded(rows: seq<Row>, id: int, entry: Entry, stored: Entry): seq<Row> {
    rows + [Row(id, stored, TipOf(rows), Digest(TipOf(rows), Canonical(entry)))]
  }

  /** The row continues the chain that ends in `prev`. */
  predicate LinksTo(prev: Option<Hash>, row: Row) {
    row.rowHash == Digest(prev, Canonical(row.entry)) && row.prevHash == prev
  }

  /** `verifyChain` finds nothing broken. */
  predicate Verified(rows: seq<Row>) {
    rows == [] || (Verified(rows[..|rows| - 1]) && LinksTo(TipOf(rows[..|rows| - 1]), rows[|rows| - 1]))
  }

  lemma SameEntrySameText(a: Entry, b: Entry)
    requires SameEntry(a, b)
    ensures Canonical(a) == Canonical(b)
  {
    StableIffSameMeaning(a.before, b.before);
    StableIffSameMeaning(a.after, b.after);
  }

  lemma {:induction false} RecordingKeeps(rows: seq<Row>, id: int, entry: Entry, stored: Entry)
    requires Verified(rows) && SameEntry(entry, stored)
    ensures Verified(Recorded(rows, id, entry, stored))
  {
    hide SameEntry, Canonical;
    SameEntrySameText(entry, stored);
    var after := Recorded(rows, id, entry, stored);
    assert after[..|rows|] == rows;
  }

  /** One call of `recordWith`: what it was given, and what the table keeps of it. */
  datatype Recording = Recording(id: int, entry: Entry, stored: Entry)

  predicate Faithful(calls: seq<Recording>) {
    forall i :: 0 <= i < |calls| ==> SameEntry(calls[i].entry, calls[i].stored)
  }

  /** The table after these calls, from the empty one. */
  function Built(calls: seq<Recording>): seq<Row> {
    if calls == [] then []
    else
      var c := calls[|calls| - 1];
      Recorded(Built(calls[..|calls| - 1]), c.id, c.entry, c.stored)
  }

  /** Every table built by recording verifies, even when the database reorders object keys at any depth. */
  lemma {:induction false} RecordingVerifies(calls: seq<Recording>)
    requires Faithful(calls)
    ensures Verified(Built(calls)) && |Built(calls)| == |calls|
  {
    hide Verified, SameEntry;
    if calls == [] {
      NothingVerifies();
    } else {
      var front, c := calls[..|calls| - 1], calls[|calls| - 1];
      assert Faithful(front) by {
        assert forall i :: 0 <= i < |front| ==> front[i] == calls[i];
      }
      RecordingVerifies(front);
      RecordingKeeps(Built(front), c.id, c.entry, c.stored);
    }
  }

  lemma NothingVerifies()
    ensures Verified([])
  {
  }

  /** A hash as long as the chain it ends. */
  function Depth(h: Option<Hash>): nat {
    match h case None => 0 case Some(Digest(prev, _)) => 1 + Depth(prev)
  }

  lemma {:induction false} TipDepth(rows: seq<Row>)
    requires Verified(rows)
    ensures Depth(TipOf(rows)) == |rows|
  {
    if rows != [] {
      TipDepth(rows[..|rows| - 1]);
    }
  }

  lemma {:induction false} PrefixVerifies(rows: seq<Row>, n: nat)
    requires Verified(rows) && n <= |rows|
    ensures Verified(rows[..n])
  {
    if n < |rows| {
      PrefixVerifies(rows[..|rows| - 1], n);
      assert rows[..|rows| - 1][..n] == rows[..n];
    } else {
      assert rows[..n] == rows;
    }
  }

  /** No two rows have the same hash. */
  lemma {:induction false} HashesDiffer(rows: seq<Row>, i: nat, j: nat)
    requires Verified(rows) && i < j < |rows|
    ensures rows[i].rowHash != rows[j].rowHash
  {
    PrefixVerifies(rows, i + 1);
    PrefixVerifies(rows, j + 1);
    TipDepth(rows[..i + 1]);
    TipDepth(rows[..j + 1]);
    assert TipOf(rows[..i + 1]) == Some(rows[i].rowHash) && TipOf(rows[..j + 1]) == Some(rows[j].rowHash);
  }

  /** Two verified tables that end in the same hash have the same length and the same entries throughout. */
  lemma {:induction false} SameTipSameHistory(a: seq<Row>, b: seq<Row>, i: nat)
    requires Verified(a) && Verified(b) && TipOf(a) == TipOf(b)
    ensures |a| == |b|
    ensures i < |a| ==> Canonical(a[i].entry) == Canonical(b[i].entry) && a[i].rowHash == b[i].rowHash
  {
    hide Canonical;
    TipDepth(a);
    TipDepth(b);
    if i < |a| {
      if i == |a| - 1 {
        assert LinksTo(TipOf(a[..i]), a[i]) && LinksTo(TipOf(b[..i]), b[i]);
      } else {
        SameTipSameHistory(a[..|a| - 1], b[..|b| - 1], i);
      }
    }
  }

  /** Editing any row's content while keeping the last hash is caught. */
  lemma {:induction false} EditIsCaught(rows: seq<Row>, edited: seq<Row>, i: nat)
    requires Verified(rows) && TipOf(edited) == TipOf(rows) && i < |rows| && i < |edited|
    requires Canonical(edited[i].entry) != Canonical(rows[i].entry)
    ensures !Verified(edited)
  {
    if Verified(edited) {
      SameTipSameHistory(rows, edited, i);
    }
  }

  /** Removing any row but a suffix is caught; removing a suffix is not. */
  lemma {:induction false} RemovalIsCaughtIff(rows: seq<Row>, i: nat, n: nat)
    requires Verified(rows) && n > 0 && i + n <= |rows|
    ensures Verified(rows[..i] + rows[i + n..]) <==> i + n == |rows|
  {
    var kept := rows[..i] + rows[i + n..];
    if i + n == |rows| {
      assert kept == rows[..i];
      PrefixVerifies(rows, i);
    } else if Verified(kept) {
      assert TipOf(kept) == TipOf(rows);
      SameTipSameHistory(rows, kept, 0);
    }
  }

  /** A row's hash tells its place. */
  lemma {:induction false} RowDepth(rows: seq<Row>, i: nat)
    requires Verified(rows) && i < |rows|
    ensures Depth(Some(rows[i].rowHash)) == i + 1
  {
    PrefixVerifies(rows, i + 1);
    TipDepth(rows[..i + 1]);
  }

  /** Any rearrangement of the rows, the last one included, is caught. */
  lemma {:induction false} ReorderIsCaught(rows: seq<Row>, reordered: seq<Row>)
    requires Verified(rows) && multiset(reordered) == multiset(rows) && reordered != rows
    ensures !Verified(reordered)
  {
    if Verified(reordered) {
      assert |reordered| == |multiset(reordered)| == |rows|;
      forall j | 0 <= j < |rows| ensures reordered[j] == rows[j] {
        assert reordered[j] in multiset(rows);
        var i :| 0 <= i < |rows| && rows[i] == reordered[j];
        RowDepth(rows, i);
        RowDepth(reordered, j);
      }
    }
  }

  // ---------------------------------------------------------------- the service, in place

  class AuditLog {
    var rows: seq<Row>

    constructor ()
      ensures rows == []
    {
      rows := [];
    }

    /** Append under the tenant's lock. */
    method Record(id: int, entry: Entry, stored: Entry)
      requires SameEntry(entry, stored) && Verified(rows)
      modifies this
      ensures rows == Recorded(old(rows), id, entry, stored) && Verified(rows)
    {
      hide SameEntry, Canonical;
      RecordingKeeps(rows, id, entry, stored);
      var prev: Option<Hash> := None;
      if rows != [] {
        prev := Some(rows[|rows| - 1].rowHash);
      }
      rows := rows + [Row(id, stored, prev, Digest(prev, Canonical(entry)))];
    }

    /** Recompute the chain row by row; the first row that does not follow is reported. */
    method VerifyChain() returns (valid: bool, entries: nat, brokenAt: Option<nat>)
      ensures entries == |rows|
      ensures valid <==> Verified(rows)
      ensures valid <==> brokenAt.None?
      ensures brokenAt.Some? ==> brokenAt.value < |rows|
      ensures brokenAt.Some? ==> Verified(rows[..brokenAt.value]) && !Verified(rows[..brokenAt.value + 1])
    {
      hide Canonical;
      entries := |rows|;
      var prev: Option<Hash> := None;
      var i := 0;
      while i < |rows|
        invariant 0 <= i <= |rows|
        invariant Verified(rows[..i]) && prev == TipOf(rows[..i])
      {
        var row := rows[i];
        var expected := Digest(prev, Canonical(row.entry));
        assert rows[..i + 1][..i] == rows[..i];
        if expected != row.rowHash || prev.Some? != row.prevHash.Some? || (prev.Some? && prev != row.prevHash) {
          NotVerified(rows, i + 1);
          return false, entries, Some(i);
        }
        prev := Some(row.rowHash);
        i := i + 1;
      }
      assert rows[..i] == rows;
      return true, entries, None;
    }
  }

  lemma {:induction false} NotVerified(rows: seq<Row>, n: nat)
    requires n <= |rows| && !Verified(rows[..n])
    ensures !Verified(rows)
  {
    if Verified(rows) {
      PrefixVerifies(rows, n);
    }
  }

  ghost predicate Linked(rows: seq<Row>, i: nat)
    requires i < |rows|
  {
    && rows[i].prevHash == (if i == 0 then None else Some(rows[i - 1].rowHash))
    && rows[i].rowHash == Digest(rows[i].prevHash, Canonical(rows[i].entry))
  }

  /** The chain verifies exactly when every row names the hash of the row before it and hashes that together with its own entry. */
  lemma {:induction false} VerifiedIff(rows: seq<Row>)
    ensures Verified(rows) <==> forall i :: 0 <= i < |rows| ==> Linked(rows, i)
  {
    hide Canonical;
    if rows != [] {
      var front, last := rows[..|rows| - 1], |rows| - 1;
      VerifiedIff(front);
      forall i | 0 <= i < |front| ensures Linked(front, i) <==> Linked(rows, i) {
      }
      assert LinksTo(TipOf(front), rows[last]) <==> Linked(rows, last);
      assert (forall i :: 0 <= i < |rows| ==> Linked(rows, i)) <==> (forall i :: 0 <= i < |front| ==> Linked(rows, i)) && Linked(rows, last);
    }
  }
}
