/** The values the actions work on: what `yaml.load` / `YAML.parse` hand back
    and what JavaScript then holds — null, undefined, booleans, numbers,
    strings, arrays (possibly with holes) and plain objects. */
module JsValues {
  import opened Wrappers

  datatype Value =
    | Undefined
    | Null
    | Bool(b: bool)
    | Num(n: real)
    | Str(s: string)
    | Arr(slots: seq<Slot>)
    | Obj(entries: seq<Entry>)

  /** One index of an array: a hole (no own property at that index) or an
      element. */
  datatype Slot = Hole | Item(value: Value)

  /** One own enumerable property of a plain object; an object's entries are
      listed in its `for...in` / `Object.keys` enumeration order. */
  datatype Entry = Entry(key: string, value: Value)

  /** `typeof v === 'object' && v !== null`. */
  predicate IsObject(v: Value) {
    v.Arr? || v.Obj?
  }

  /** The number of elements (non-holes) among `slots`. */
  function ItemCount(slots: seq<Slot>): (n: nat)
    ensures n <= |slots|
    ensures n == 0 <==> forall i :: 0 <= i < |slots| ==> slots[i] == Hole
  {
    if slots == [] then 0
    else (if slots[0].Item? then 1 else 0) + ItemCount(slots[1..])
  }

  /** `Object.keys(v).length` for an object or an array. */
  function OwnKeyCount(v: Value): nat
    requires IsObject(v)
  {
    if v.Arr? then ItemCount(v.slots) else |v.entries|
  }

  function Keys(es: seq<Entry>): (ks: seq<string>)
    ensures |ks| == |es|
    ensures forall i :: 0 <= i < |es| ==> ks[i] == es[i].key
  {
    if es == [] then [] else [es[0].key] + Keys(es[1..])
  }

  /** The key whose assignment goes to the inherited prototype setter
      rather than creating an own property. */
  const PROTO_KEY: string := "__proto__"

  predicate IsDigit(c: char) {
    '0' <= c <= '9'
  }

  /** The number a string of decimal digits denotes. */
  function DigitsValue(s: string): nat
    requires forall i :: 0 <= i < |s| ==> IsDigit(s[i])
  {
    if s == [] then 0
    else
      var last := s[|s| - 1];
      assert IsDigit(last);
      DigitsValue(s[..|s| - 1]) * 10 + (last as int - '0' as int)
  }

  /** An array-index key: the canonical decimal form of an integer below
      2^32 - 1 (no sign, no leading zero). */
  predicate IsArrayIndexKey(k: string) {
    && k != []
    && (forall i :: 0 <= i < |k| ==> IsDigit(k[i]))
    && (k[0] == '0' ==> |k| == 1)
    && DigitsValue(k) < 0xFFFF_FFFF
  }

  /** `a` may be enumerated before `b`: array-index keys come first, in
      ascending numeric order, and the other keys after them, in insertion
      order. */
  predicate KeyPrecedes(a: string, b: string) {
    if IsArrayIndexKey(a) then !IsArrayIndexKey(b) || DigitsValue(a) < DigitsValue(b)
    else !IsArrayIndexKey(b)
  }

  /** The entries are listed in the order JavaScript enumerates an ordinary
      object's own keys. */
  predicate InEnumerationOrder(es: seq<Entry>) {
    forall i, j :: 0 <= i < j < |es| ==> KeyPrecedes(es[i].key, es[j].key)
  }

  /** No key occurs twice: what every JavaScript object guarantees. */
  predicate DistinctKeys(es: seq<Entry>) {
    forall i, j :: 0 <= i < j < |es| ==> es[i].key != es[j].key
  }

  /** Every object in the tree has distinct keys, listed in enumeration
      order. */
  predicate WellFormed(v: Value) {
    match v
    case Arr(slots) => forall i :: 0 <= i < |slots| ==> slots[i].Item? ==> WellFormed(slots[i].value)
    case Obj(es) =>
      && DistinctKeys(es) && InEnumerationOrder(es)
      && forall i :: 0 <= i < |es| ==> WellFormed(es[i].value)
    case _ => true
  }

  /** The value stored under `k`, if `k` is an own key. */
  function Lookup(es: seq<Entry>, k: string): (r: Option<Value>)
    ensures r.None? <==> k !in Keys(es)
    ensures r.Some? ==> exists i :: 0 <= i < |es| && es[i] == Entry(k, r.value)
  {
    if es == [] then None
    else if es[0].key == k then Some(es[0].value)
    else Lookup(es[1..], k)
  }

  /** Outcome of reading a property `o.k` in JavaScript: reading from null or
      undefined throws a TypeError; any other value yields the property or
      `undefined`. Only own properties of plain objects are modelled: this is
      exact for names no built-in prototype defines (`apiVersion`, `kind`,
      `metadata`, `name`, `namespace`), not for names such as `length` or
      `toString`. */
  function GetProperty(v: Value, k: string): (r: Option<Value>)
    ensures r.None? <==> (v.Null? || v.Undefined?)
    ensures v.Obj? ==> r == Some(match Lookup(v.entries, k) case Some(x) => x case None => Undefined)
    ensures !v.Obj? && !v.Null? && !v.Undefined? ==> r == Some(Undefined)
  {
    match v
    case Undefined => None
    case Null => None
    case Obj(es) => (match Lookup(es, k) case Some(x) => Some(x) case None => Some(Undefined))
    case _ => Some(Undefined)
  }

  /** JavaScript truthiness (NaN is not a modelled number). */
  predicate Truthy(v: Value) {
    match v
    case Undefined => false
    case Null => false
    case Bool(b) => b
    case Num(n) => n != 0.0
    case Str(s) => s != ""
    case _ => true
  }

  /** `a[i] = x` on a JavaScript array: an index past the end grows the array,
      leaving holes between the old end and `i`. */
  function SetIndex(a: seq<Slot>, i: nat, x: Value): (r: seq<Slot>)
    ensures |r| == if i < |a| then |a| else i + 1
    ensures r[i] == Item(x)
    ensures forall j :: 0 <= j < |a| && j != i ==> r[j] == a[j]
    ensures forall j :: |a| <= j < i ==> r[j] == Hole
  {
    if i < |a| then a[i := Item(x)] else a + seq(i - |a|, _ => Hole) + [Item(x)]
  }

  /** Adds a new own property where JavaScript enumerates it: an
      array-index key before the first key it precedes, any other key at the
      end. */
  function InsertKey(es: seq<Entry>, e: Entry): (r: seq<Entry>)
    requires e.key !in Keys(es)
    ensures |r| == |es| + 1
    ensures Lookup(r, e.key) == Some(e.value)
    ensures forall k :: k != e.key ==> Lookup(r, k) == Lookup(es, k)
  {
    if es == [] then [e]
    else if IsArrayIndexKey(e.key) && KeyPrecedes(e.key, es[0].key) then [e] + es
    else [es[0]] + InsertKey(es[1..], e)
  }

  /** `o[k] = x` on a plain JavaScript object whose own keys are `es`: an
      existing key keeps its place and gets the new value; `__proto__`, when
      not an own key, goes to the prototype setter and adds no own key; any
      other key becomes a new own property, in enumeration order. */
  function SetKey(es: seq<Entry>, k: string, x: Value): (r: seq<Entry>)
    ensures k in Keys(es) ==> Keys(r) == Keys(es) && Lookup(r, k) == Some(x)
    ensures k !in Keys(es) && k == PROTO_KEY ==> r == es
    ensures k !in Keys(es) && k != PROTO_KEY ==> |r| == |es| + 1 && Lookup(r, k) == Some(x)
    ensures forall k' :: k' != k ==> Lookup(r, k') == Lookup(es, k')
  {
    if k in Keys(es) then Overwrite(es, k, x)
    else if k == PROTO_KEY then es
    else InsertKey(es, Entry(k, x))
  }

  /** Replaces the value of the first entry under `k`. */
  function Overwrite(es: seq<Entry>, k: string, x: Value): (r: seq<Entry>)
    ensures Keys(r) == Keys(es)
    ensures k in Keys(es) ==> Lookup(r, k) == Some(x)
    ensures forall k' :: k' != k ==> Lookup(r, k') == Lookup(es, k')
  {
    if es == [] then []
    else if es[0].key == k then [Entry(k, x)] + es[1..]
    else [es[0]] + Overwrite(es[1..], k, x)
  }

  /** A new key that every present key precedes is simply appended. */
  lemma {:induction false} InsertKeyAtEnd(es: seq<Entry>, e: Entry)
    requires e.key !in Keys(es)
    requires forall i :: 0 <= i < |es| ==> KeyPrecedes(es[i].key, e.key)
    ensures InsertKey(es, e) == es + [e]
  {
    if es != [] {
      KeyPrecedesAsymmetric(es[0].key, e.key);
      assert !(IsArrayIndexKey(e.key) && KeyPrecedes(e.key, es[0].key));
      assert e.key !in Keys(es[1..]) by {
        assert Keys(es[1..]) == Keys(es)[1..];
      }
      forall i | 0 <= i < |es[1..]| ensures KeyPrecedes(es[1..][i].key, e.key) {
        assert es[1..][i] == es[i + 1];
      }
      InsertKeyAtEnd(es[1..], e);
      assert InsertKey(es, e) == [es[0]] + InsertKey(es[1..], e);
      ConsSnoc(es, e);
    }
  }

  /** Splitting off the head commutes with appending. */
  lemma ConsSnoc<T>(s: seq<T>, x: T)
    requires s != []
    ensures [s[0]] + (s[1..] + [x]) == s + [x]
  {
  }

  lemma KeyPrecedesAsymmetric(a: string, b: string)
    requires KeyPrecedes(a, b)
    ensures IsArrayIndexKey(b) ==> !KeyPrecedes(b, a)
  {
  }
}
