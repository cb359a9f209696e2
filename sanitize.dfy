/** The `cnoe:utils:sanitize` action's pruner, `removeEmptyObjects`: drop
    every map entry and array element whose pruned value is null, undefined
    or an empty container. */
module Sanitize {
  import opened Wrappers
  import opened JsValues

  /** The drop test applied to a pruned child: null, undefined, or an object
      or array with no own keys. Falsy scalars (`0`, `false`, `""`) pass. */
  predicate IsEmptyValue(v: Value)
    ensures (v.Bool? || v.Num? || v.Str?) ==> !IsEmptyValue(v)
    ensures v.Obj? ==> (IsEmptyValue(v) <==> Keys(v.entries) == [])
    ensures v.Arr? ==> (IsEmptyValue(v) <==> forall i :: 0 <= i < |v.slots| ==> v.slots[i] == Hole)
  {
    v.Null? || v.Undefined? || (IsObject(v) && OwnKeyCount(v) == 0)
  }

  // ---------------------------------------------------------------------
  // Specification
  // ---------------------------------------------------------------------

  /** The pruned value of `v`. Scalars, null and undefined come back as they
      are; an array stays an array and an object an object. */
  function Prune(v: Value): (r: Value)
    ensures r.Arr? <==> v.Arr?
    ensures r.Obj? <==> v.Obj?
    ensures !IsObject(v) ==> r == v
    decreases v
  {
    match v
    case Arr(slots) => Arr(PruneSlots(slots))
    case Obj(es) => Obj(PruneEntries(es))
    case _ => v
  }

  /** What index `i` of the result holds, given what index `i` of the input
      held: a hole stays a hole, an element whose pruned value is empty
      becomes a hole, any other element is replaced by its pruned value. */
  function PruneSlot(s: Slot): Slot
    decreases s
  {
    match s
    case Hole => Hole
    case Item(x) => if IsEmptyValue(Prune(x)) then Hole else Item(Prune(x))
  }

  /** The pruned array: every index keeps its position (no compaction), and
      the length is one past the last index that is still an element. */
  function PruneSlots(slots: seq<Slot>): (r: seq<Slot>)
    ensures |r| <= |slots|
    ensures r == [] || r[|r| - 1].Item?
    ensures forall i :: 0 <= i < |r| && r[i].Item? ==> !IsEmptyValue(r[i].value)
    decreases slots
  {
    if slots == [] then []
    else
      var head := PruneSlot(slots[0]);
      var tail := PruneSlots(slots[1..]);
      if head == Hole && tail == [] then [] else [head] + tail
  }

  /** Whether an entry with this key and pruned value becomes an own
      property of the pruned object: its value is not empty, and its key is
      not `__proto__` (assigning that key sets the prototype instead). */
  predicate Kept(key: string, p: Value) {
    key != PROTO_KEY && !IsEmptyValue(p)
  }

  /** The pruned object: entries whose pruned value is empty, and a
      `__proto__` entry, are dropped; the rest keep their keys and their
      order. */
  function PruneEntries(es: seq<Entry>): (r: seq<Entry>)
    ensures |r| <= |es|
    ensures forall i :: 0 <= i < |r| ==> r[i].key != PROTO_KEY && !IsEmptyValue(r[i].value)
    decreases es
  {
    if es == [] then []
    else
      var p := Prune(es[0].value);
      var tail := PruneEntries(es[1..]);
      if Kept(es[0].key, p) then [Entry(es[0].key, p)] + tail else tail
  }

  // ---------------------------------------------------------------------
  // The pruner as the source runs it: at every level a fresh array or
  // object is filled, key by key, inside a `for...in` loop.
  // ---------------------------------------------------------------------

  /** `removeEmptyObjects(obj)`. The input is left as it is; the result is a
      freshly built tree equal to `Prune(v)`. */
  method RemoveEmptyObjects(v: Value) returns (r: Value)
    requires WellFormed(v)
    ensures r == Prune(v)
    decreases v
  {
    match v
    case Arr(slots) =>
      var newObj: seq<Slot> := [];
      // `for...in` over an array visits its element indices in ascending
      // order and skips holes.
      for i := 0 to |slots|
        invariant |newObj| <= i
        invariant forall j :: 0 <= j < |newObj| ==> newObj[j] == PruneSlot(slots[j])
        invariant forall j :: |newObj| <= j < i ==> PruneSlot(slots[j]) == Hole
        invariant newObj == [] || newObj[|newObj| - 1].Item?
      {
        if slots[i].Item? {
          var newValue := RemoveEmptyObjects(slots[i].value);
          if !IsEmptyValue(newValue) {
            newObj := SetIndex(newObj, i, newValue);
          }
        }
      }
      PruneSlotsUnique(slots, newObj);
      r := Arr(newObj);
    case Obj(es) =>
      var newObj: seq<Entry> := [];
      for i := 0 to |es|
        invariant newObj == PruneEntries(es[..i])
      {
        var newValue := RemoveEmptyObjects(es[i].value);
        if !IsEmptyValue(newValue) {
          assert es[i].key !in Keys(newObj) by {
            assert DistinctKeys(es[..i]);
            assert Lookup(es[..i], es[i].key).None?;
            PruneEntriesLookup(es[..i], es[i].key);
          }
          if es[i].key != PROTO_KEY {
            PruneEntriesPrecede(es, i);
            InsertKeyAtEnd(newObj, Entry(es[i].key, newValue));
          }
          newObj := SetKey(newObj, es[i].key, newValue);
        }
        PruneEntriesSnoc(es[..i], es[i]);
        assert es[..i + 1] == es[..i] + [es[i]];
      }
      assert es[..|es|] == es;
      r := Obj(newObj);
    case _ =>
      r := v;
  }

  // ---------------------------------------------------------------------
  // Properties
  // ---------------------------------------------------------------------

  /** What the pruned array holds: index `i` of the result is the pruned
      slot of index `i` of the input (kept elements stay where they were, no
      compaction); past the result's end only holes or dropped elements
      remain; the result never ends in a hole. */
  lemma {:induction false} PruneSlotsAt(slots: seq<Slot>)
    ensures |PruneSlots(slots)| <= |slots|
    ensures forall i :: 0 <= i < |PruneSlots(slots)| ==> PruneSlots(slots)[i] == PruneSlot(slots[i])
    ensures forall i :: |PruneSlots(slots)| <= i < |slots| ==> PruneSlot(slots[i]) == Hole
    ensures PruneSlots(slots) == [] || PruneSlots(slots)[|PruneSlots(slots)| - 1].Item?
  {
    if slots != [] {
      PruneSlotsAt(slots[1..]);
    }
  }

  /** The facts of `PruneSlotsAt` determine the pruned array. */
  lemma {:induction false} PruneSlotsUnique(slots: seq<Slot>, out: seq<Slot>)
    requires |out| <= |slots|
    requires forall i :: 0 <= i < |out| ==> out[i] == PruneSlot(slots[i])
    requires forall i :: |out| <= i < |slots| ==> PruneSlot(slots[i]) == Hole
    requires out == [] || out[|out| - 1].Item?
    ensures out == PruneSlots(slots)
  {
    if slots == [] {
    } else if out == [] {
      PruneSlotsUnique(slots[1..], []);
      assert PruneSlot(slots[0]) == Hole;
    } else {
      PruneSlotsUnique(slots[1..], out[1..]);
      assert out == [out[0]] + out[1..];
    }
  }

  /** Extending an object by one entry extends its pruned form by that
      entry's pruned form, if it is kept. */
  lemma {:induction false} PruneEntriesSnoc(es: seq<Entry>, e: Entry)
    ensures PruneEntries(es + [e]) ==
      PruneEntries(es) + (if Kept(e.key, Prune(e.value)) then [Entry(e.key, Prune(e.value))] else [])
  {
    if es == [] {
      assert es + [e] == [e];
    } else {
      assert (es + [e])[1..] == es[1..] + [e];
      PruneEntriesSnoc(es[1..], e);
    }
  }

  /** A key is absent from the pruned object exactly when it was absent from
      the input, is `__proto__`, or its pruned value is empty; otherwise it
      maps to its pruned value. In particular the result has no key the input
      did not have. */
  lemma {:induction false} PruneEntriesLookup(es: seq<Entry>, k: string)
    requires DistinctKeys(es)
    ensures Lookup(PruneEntries(es), k) ==
      match Lookup(es, k)
      case None => None
      case Some(x) => if Kept(k, Prune(x)) then Some(Prune(x)) else None
  {
    if es != [] {
      assert DistinctKeys(es[1..]) by {
        forall i, j | 0 <= i < j < |es[1..]| ensures es[1..][i].key != es[1..][j].key {
          assert es[1..][i] == es[i + 1] && es[1..][j] == es[j + 1];
        }
      }
      PruneEntriesLookup(es[1..], k);
      if es[0].key == k {
        assert k !in Keys(es[1..]) by {
          forall i | 0 <= i < |es[1..]| ensures Keys(es[1..])[i] != k {
            assert es[1..][i] == es[i + 1];
          }
        }
      }
    }
  }

  /** `IsSubsequence(a, b)`: `a` is `b` with some elements left out. */
  predicate IsSubsequence(a: seq<string>, b: seq<string>)
    decreases |b|
  {
    a == [] || (b != [] && ((a[0] == b[0] && IsSubsequence(a[1..], b[1..])) || IsSubsequence(a, b[1..])))
  }

  /** The surviving keys keep their original relative order. */
  lemma {:induction false} PruneEntriesKeepsOrder(es: seq<Entry>)
    ensures IsSubsequence(Keys(PruneEntries(es)), Keys(es))
  {
    if es != [] {
      PruneEntriesKeepsOrder(es[1..]);
      assert Keys(es)[1..] == Keys(es[1..]);
      var tail := PruneEntries(es[1..]);
      if Kept(es[0].key, Prune(es[0].value)) {
        assert Keys(PruneEntries(es))[1..] == Keys(tail);
      } else {
        assert PruneEntries(es) == tail;
      }
    }
  }

  /** A non-null scalar under a key other than `__proto__`, falsy ones
      (`0`, `false`, `""`) included, is kept unchanged. */
  lemma {:induction false} ScalarEntrySurvives(es: seq<Entry>, k: string, x: Value)
    requires DistinctKeys(es)
    requires k != PROTO_KEY
    requires Lookup(es, k) == Some(x)
    requires !IsObject(x) && !x.Null? && !x.Undefined?
    ensures Lookup(PruneEntries(es), k) == Some(x)
  {
    PruneEntriesLookup(es, k);
  }

  /** A non-null scalar element, falsy ones included, is kept unchanged at
      its index. */
  lemma {:induction false} ScalarItemSurvives(slots: seq<Slot>, i: nat, x: Value)
    requires i < |slots| && slots[i] == Item(x)
    requires !IsObject(x) && !x.Null? && !x.Undefined?
    ensures i < |PruneSlots(slots)| && PruneSlots(slots)[i] == Item(x)
  {
    PruneSlotsAt(slots);
  }

  /** A mapping whose only key is `__proto__` prunes to an object with no
      own key, so a parent key holding it is dropped: `{x: {__proto__: {a: 1}}}`
      prunes to `{}`, and `{__proto__: 1, b: 2}` to `{b: 2}`. */
  lemma ProtoKeyDropped()
    ensures Prune(Obj([Entry("x", Obj([Entry(PROTO_KEY, Obj([Entry("a", Num(1.0))]))]))])) == Obj([])
    ensures Prune(Obj([Entry(PROTO_KEY, Num(1.0)), Entry("b", Num(2.0))])) == Obj([Entry("b", Num(2.0))])
  {
    var inner := Obj([Entry(PROTO_KEY, Obj([Entry("a", Num(1.0))]))]);
    assert PruneEntries(inner.entries) == [];
    assert IsEmptyValue(Prune(inner));
    assert PruneEntries([Entry("b", Num(2.0))]) == [Entry("b", Num(2.0))];
  }

  /** A tree whose every leaf is null, undefined or an empty container. */
  predicate Hollow(v: Value) {
    match v
    case Undefined => true
    case Null => true
    case Arr(slots) => forall i :: 0 <= i < |slots| ==> slots[i].Item? ==> Hollow(slots[i].value)
    case Obj(es) => forall i :: 0 <= i < |es| ==> Hollow(es[i].value)
    case _ => false
  }

  /** A hollow tree prunes to nothing below the top: an array comes back as
      `[]`, an object as `{}`, null and undefined as themselves. */
  lemma {:induction false} HollowPrunesToEmpty(v: Value)
    requires Hollow(v)
    ensures IsEmptyValue(Prune(v))
    ensures v.Arr? ==> Prune(v) == Arr([])
    ensures v.Obj? ==> Prune(v) == Obj([])
    decreases v
  {
    match v
    case Arr(slots) => HollowSlotsPruneToEmpty(slots);
    case Obj(es) => HollowEntriesPruneToEmpty(es);
    case _ =>
  }

  lemma {:induction false} HollowSlotsPruneToEmpty(slots: seq<Slot>)
    requires forall i :: 0 <= i < |slots| ==> slots[i].Item? ==> Hollow(slots[i].value)
    ensures PruneSlots(slots) == []
    decreases slots
  {
    if slots != [] {
      if slots[0].Item? {
        assert slots[0].value < slots[0];
        HollowPrunesToEmpty(slots[0].value);
      }
      HollowSlotsPruneToEmpty(slots[1..]);
    }
  }

  lemma {:induction false} HollowEntriesPruneToEmpty(es: seq<Entry>)
    requires forall i :: 0 <= i < |es| ==> Hollow(es[i].value)
    ensures PruneEntries(es) == []
    decreases es
  {
    if es != [] {
      HollowPrunesToEmpty(es[0].value);
      HollowEntriesPruneToEmpty(es[1..]);
    }
  }

  /** Pruning is idempotent on own-key values. (An in-memory result whose
      prototype a `__proto__` assignment replaced is not covered: a second
      `for...in` would also visit the prototype's keys.) */
  lemma {:induction false} PruneIdempotent(v: Value)
    ensures Prune(Prune(v)) == Prune(v)
    decreases v
  {
    match v
    case Arr(slots) => PruneSlotsIdempotent(slots);
    case Obj(es) => PruneEntriesIdempotent(es);
    case _ =>
  }

  lemma {:induction false} PruneSlotsIdempotent(slots: seq<Slot>)
    ensures PruneSlots(PruneSlots(slots)) == PruneSlots(slots)
    decreases slots
  {
    if slots != [] {
      var r := PruneSlots(slots);
      PruneSlotsIdempotent(slots[1..]);
      if slots[0].Item? {
        assert slots[0].value < slots[0];
        PruneIdempotent(slots[0].value);
      }
      if r != [] {
        assert r == [PruneSlot(slots[0])] + PruneSlots(slots[1..]);
        assert r[1..] == PruneSlots(slots[1..]);
      }
    }
  }

  lemma {:induction false} PruneEntriesIdempotent(es: seq<Entry>)
    ensures PruneEntries(PruneEntries(es)) == PruneEntries(es)
    decreases es
  {
    if es != [] {
      var r := PruneEntries(es);
      PruneEntriesIdempotent(es[1..]);
      PruneIdempotent(es[0].value);
      if Kept(es[0].key, Prune(es[0].value)) {
        assert r[1..] == PruneEntries(es[1..]);
      }
    }
  }

  /** Pruning never makes a key occur twice. */
  lemma {:induction false} PruneWellFormed(v: Value)
    requires WellFormed(v)
    ensures WellFormed(Prune(v))
    decreases v
  {
    match v
    case Arr(slots) =>
      PruneSlotsAt(slots);
      var r := PruneSlots(slots);
      forall i | 0 <= i < |r| && r[i].Item? ensures WellFormed(r[i].value) {
        PruneWellFormed(slots[i].value);
      }
    case Obj(es) =>
      PruneEntriesWellFormed(es);
      PruneEntriesOrdered(es);
    case _ =>
  }

  lemma {:induction false} PruneEntriesWellFormed(es: seq<Entry>)
    requires DistinctKeys(es)
    requires forall i :: 0 <= i < |es| ==> WellFormed(es[i].value)
    ensures DistinctKeys(PruneEntries(es))
    ensures forall i :: 0 <= i < |PruneEntries(es)| ==> WellFormed(PruneEntries(es)[i].value)
    decreases es
  {
    if es != [] {
      assert DistinctKeys(es[1..]) by {
        forall i, j | 0 <= i < j < |es[1..]| ensures es[1..][i].key != es[1..][j].key {
          assert es[1..][i] == es[i + 1] && es[1..][j] == es[j + 1];
        }
      }
      PruneEntriesWellFormed(es[1..]);
      PruneWellFormed(es[0].value);
      var tail := PruneEntries(es[1..]);
      if Kept(es[0].key, Prune(es[0].value)) {
        var k := es[0].key;
        assert k !in Keys(tail) by {
          assert k !in Keys(es[1..]) by {
            forall i | 0 <= i < |es[1..]| ensures Keys(es[1..])[i] != k {
              assert es[1..][i] == es[i + 1];
            }
          }
          PruneEntriesLookup(es[1..], k);
        }
        var r := [Entry(k, Prune(es[0].value))] + tail;
        forall i, j | 0 <= i < j < |r| ensures r[i].key != r[j].key {
          if i == 0 {
            assert r[j] == tail[j - 1];
            assert Keys(tail)[j - 1] == tail[j - 1].key;
          } else {
            assert r[i] == tail[i - 1] && r[j] == tail[j - 1];
          }
        }
      }
    }
  }

  /** Every key of the pruned object is a key of the input. */
  lemma {:induction false} PruneEntriesKeysFrom(es: seq<Entry>)
    ensures forall m :: 0 <= m < |PruneEntries(es)| ==> PruneEntries(es)[m].key in Keys(es)
  {
    if es != [] {
      PruneEntriesKeysFrom(es[1..]);
      assert Keys(es) == [es[0].key] + Keys(es[1..]);
      var tail := PruneEntries(es[1..]);
      if Kept(es[0].key, Prune(es[0].value)) {
        var r := PruneEntries(es);
        assert r == [Entry(es[0].key, Prune(es[0].value))] + tail;
        forall m | 0 <= m < |r| ensures r[m].key in Keys(es) {
          if m > 0 {
            assert r[m] == tail[m - 1];
          }
        }
      } else {
        assert PruneEntries(es) == tail;
      }
    }
  }

  /** In the `for...in` loop, every key already copied precedes the key
      being visited, so copying it appends it. */
  lemma PruneEntriesPrecede(es: seq<Entry>, i: nat)
    requires InEnumerationOrder(es) && i < |es|
    ensures forall m :: 0 <= m < |PruneEntries(es[..i])| ==> KeyPrecedes(PruneEntries(es[..i])[m].key, es[i].key)
  {
    var r := PruneEntries(es[..i]);
    PruneEntriesKeysFrom(es[..i]);
    forall m | 0 <= m < |r| ensures KeyPrecedes(r[m].key, es[i].key) {
      var j :| 0 <= j < |Keys(es[..i])| && Keys(es[..i])[j] == r[m].key;
      assert es[..i][j] == es[j];
    }
  }

  /** Pruning keeps an object's entries in enumeration order. */
  lemma {:induction false} PruneEntriesOrdered(es: seq<Entry>)
    requires InEnumerationOrder(es)
    ensures InEnumerationOrder(PruneEntries(es))
  {
    if es != [] {
      assert InEnumerationOrder(es[1..]) by {
        forall i, j | 0 <= i < j < |es[1..]| ensures KeyPrecedes(es[1..][i].key, es[1..][j].key) {
          assert es[1..][i] == es[i + 1] && es[1..][j] == es[j + 1];
        }
      }
      PruneEntriesOrdered(es[1..]);
      var tail := PruneEntries(es[1..]);
      if Kept(es[0].key, Prune(es[0].value)) {
        PruneEntriesKeysFrom(es[1..]);
        var r := PruneEntries(es);
        forall a, b | 0 <= a < b < |r| ensures KeyPrecedes(r[a].key, r[b].key) {
          assert r[b] == tail[b - 1];
          if a == 0 {
            var j :| 0 <= j < |Keys(es[1..])| && Keys(es[1..])[j] == tail[b - 1].key;
            assert es[1..][j] == es[j + 1];
          } else {
            assert r[a] == tail[a - 1];
          }
        }
      }
    }
  }
}
