/**
 * The slice of JavaScript value semantics the dispatch layer relies on:
 * JSON-shaped values plus `undefined`, truthiness, `||`, property reads with
 * and without optional chaining, object spread, and normal/abrupt completion
 * of an expression (a value or a thrown exception).
 */
module Js {
  import opened Decimal
  import opened Seqs

  /** A JavaScript value of the kinds JSON carries, plus `undefined` (the value of a missing property). */
  datatype Json =
    | Undefined
    | Null
    | Bool(b: bool)
    | Num(n: real)
    | Str(s: string)
    | Arr(items: seq<Json>)
    | Obj(fields: seq<(string, Json)>)

  /**
   * The properties of an object. Objects built here with `Put` keep them in
   * the order JavaScript enumerates them; a parsed object lists them as written.
   */
  type Fields = seq<(string, Json)>

  /** JavaScript truthiness: `undefined`, `null`, `false`, `0` and `""` are falsy. */
  predicate Truthy(v: Json) {
    match v
    case Undefined => false
    case Null => false
    case Bool(b) => b
    case Num(n) => n != 0.0
    case Str(s) => s != ""
    case Arr(_) => true
    case Obj(_) => true
  }

  predicate Nullish(v: Json) {
    v.Undefined? || v.Null?
  }

  /** `a || b`. */
  function Or(a: Json, b: Json): (r: Json)
    ensures r == a || r == b
    ensures Truthy(r) <==> Truthy(a) || Truthy(b)
    ensures Truthy(a) ==> r == a
    ensures !Truthy(a) ==> r == b
  {
    if Truthy(a) then a else b
  }

  /** `c0 || c1 || ... || fallback`: the first truthy candidate, else the fallback. */
  function FirstTruthy(cs: seq<Json>, fallback: Json): (r: Json)
    ensures forall i :: 0 <= i < |cs| && Truthy(cs[i]) && (forall j :: 0 <= j < i ==> !Truthy(cs[j])) ==> r == cs[i]
    ensures (forall i :: 0 <= i < |cs| ==> !Truthy(cs[i])) ==> r == fallback
  {
    if cs == [] then fallback else Or(cs[0], FirstTruthy(cs[1..], fallback))
  }

  function Keys(fs: Fields): seq<string> {
    seq(|fs|, i requires 0 <= i < |fs| => fs[i].0)
  }

  /**
   * The value of property `k`: `undefined` when absent; when a parsed object
   * repeats a key, the last occurrence wins, as in JSON.parse.
   */
  function Lookup(fs: Fields, k: string): Json {
    if fs == [] then Undefined
    else if k in Keys(fs[1..]) then Lookup(fs[1..], k)
    else if fs[0].0 == k then fs[0].1
    else Undefined
  }

  lemma {:induction false} LookupLast(fs: Fields, k: string, i: nat)
    requires i < |fs| && fs[i].0 == k
    requires forall j :: i < j < |fs| ==> fs[j].0 != k
    ensures Lookup(fs, k) == fs[i].1
  {
    if i > 0 {
      LookupLast(fs[1..], k, i - 1);
      assert k in Keys(fs[1..]) by { assert Keys(fs[1..])[i - 1] == k; }
    } else {
      assert k !in Keys(fs[1..]) by {
        forall j | 0 <= j < |fs| - 1 ensures Keys(fs[1..])[j] != k {
          assert fs[1..][j] == fs[j + 1];
        }
      }
    }
  }

  /** In an object whose keys are distinct, each key reads the value stored with it. */
  lemma LookupDistinct(fs: Fields, i: nat)
    requires Distinct(Keys(fs)) && i < |fs|
    ensures Lookup(fs, fs[i].0) == fs[i].1
  {
    forall j | i < j < |fs| ensures fs[j].0 != fs[i].0 {
      assert Keys(fs)[i] != Keys(fs)[j];
    }
    LookupLast(fs, fs[i].0, i);
  }

  lemma {:induction false} LookupMissing(fs: Fields, k: string)
    requires k !in Keys(fs)
    ensures Lookup(fs, k) == Undefined
  {
    if fs != [] {
      assert Keys(fs) == [fs[0].0] + Keys(fs[1..]);
    }
  }

  lemma {:induction false} LookupAppend(fs: Fields, k: string, v: Json, k': string)
    ensures Lookup(fs + [(k, v)], k') == if k' == k then v else Lookup(fs, k')
  {
    var r := fs + [(k, v)];
    if fs == [] {
      assert r[1..] == [];
    } else {
      assert r[1..] == fs[1..] + [(k, v)];
      LookupAppend(fs[1..], k, v, k');
      assert Keys(r[1..]) == Keys(fs[1..]) + [k];
    }
  }

  /** Overwrites every occurrence of key `k` with `(k, v)`, keeping positions. */
  function Replace(fs: Fields, k: string, v: Json): (r: Fields)
    ensures Keys(r) == Keys(fs)
    ensures k in Keys(fs) ==> Lookup(r, k) == v
    ensures forall k' :: k' != k ==> Lookup(r, k') == Lookup(fs, k')
  {
    if fs == [] then []
    else
      var rest := Replace(fs[1..], k, v);
      var r := [if fs[0].0 == k then (k, v) else fs[0]] + rest;
      assert r[1..] == rest;
      assert Keys(r) == [fs[0].0] + Keys(rest);
      assert Keys(fs) == [fs[0].0] + Keys(fs[1..]);
      r
  }

  /** One more than the largest array index: 2^32 - 1. */
  const ArrayIndexLimit: nat := 4294967295

  /**
   * An array-index key: the canonical decimal text of a number below
   * 2^32 - 1, such as "0" or "42" (not "07", "-1" or "1e3").
   */
  predicate IsIndexKey(k: string) {
    IsDigits(k) && ParseNat(k) < ArrayIndexLimit && NatToString(ParseNat(k)) == k
  }

  function IndexValue(k: string): nat
    requires IsIndexKey(k)
  {
    ParseNat(k)
  }

  /** A name that does not start with a digit, such as "model"; it is never an array index. */
  predicate PlainName(k: string) {
    k != [] && !IsDigit(k[0])
  }

  /**
   * Keys in the order JavaScript enumerates an object's own properties (and
   * so the order JSON.stringify writes them): array indices first, in
   * ascending numeric order, then the other names.
   */
  predicate JsOrdered(ks: seq<string>) {
    forall i, j :: 0 <= i < j < |ks| && IsIndexKey(ks[j]) ==> IsIndexKey(ks[i]) && IndexValue(ks[i]) < IndexValue(ks[j])
  }

  /** The keys that are not array indices, in their order. */
  function Named(ks: seq<string>): seq<string> {
    if ks == [] then [] else (if IsIndexKey(ks[0]) then [] else [ks[0]]) + Named(ks[1..])
  }

  lemma {:induction false} NamedAppend(a: seq<string>, b: seq<string>)
    ensures Named(a + b) == Named(a) + Named(b)
  {
    if a == [] {
      assert a + b == b;
    } else {
      assert (a + b)[1..] == a[1..] + b;
      NamedAppend(a[1..], b);
    }
  }

  /** Plain names only: nothing is an array index, so the keys are all named and already in JavaScript order. */
  lemma {:induction false} NamedPlain(ks: seq<string>)
    requires forall k :: k in ks ==> PlainName(k)
    ensures Named(ks) == ks
    ensures JsOrdered(ks)
  {
    forall j | 0 <= j < |ks| ensures !IsIndexKey(ks[j]) {
      assert PlainName(ks[j]);
      assert !IsDigit(ks[j][0]);
    }
    if ks != [] {
      assert !IsIndexKey(ks[0]);
      NamedPlain(ks[1..]);
    }
  }

  /** Where a new array index `n` goes: past the leading array indices below `n`. */
  function InsertPos(ks: seq<string>, n: nat): (p: nat)
    ensures p <= |ks|
    ensures forall i :: 0 <= i < p ==> IsIndexKey(ks[i]) && IndexValue(ks[i]) < n
    ensures p < |ks| ==> !IsIndexKey(ks[p]) || IndexValue(ks[p]) >= n
  {
    if ks == [] || !IsIndexKey(ks[0]) || IndexValue(ks[0]) >= n then 0
    else
      var q := InsertPos(ks[1..], n);
      assert forall i :: 1 <= i < q + 1 ==> ks[i] == ks[1..][i - 1];
      q + 1
  }

  /** Inserting a new key keeps an ordered key list ordered when it goes where `InsertPos` puts it. */
  lemma InsertOrdered(ks: seq<string>, k: string)
    requires JsOrdered(ks) && IsIndexKey(k) && k !in ks
    ensures var p := InsertPos(ks, IndexValue(k)); JsOrdered(ks[..p] + [k] + ks[p..])
  {
  }

  /** Appending a name keeps the order: names come after all indices. */
  lemma AppendNameOrdered(ks: seq<string>, k: string)
    requires JsOrdered(ks) && !IsIndexKey(k)
    ensures JsOrdered(ks + [k])
  {
    var r := ks + [k];
    forall i, j | 0 <= i < j < |r| && IsIndexKey(r[j])
      ensures IsIndexKey(r[i]) && IndexValue(r[i]) < IndexValue(r[j])
    {
      assert j < |ks| && r[i] == ks[i] && r[j] == ks[j];
    }
  }

  /** `fs` with `(k, v)` placed at position `p`. */
  function Insert(fs: Fields, p: nat, k: string, v: Json): (r: Fields)
    requires p <= |fs|
    ensures Keys(r) == Keys(fs)[..p] + [k] + Keys(fs)[p..]
  {
    fs[..p] + [(k, v)] + fs[p..]
  }

  lemma InsertKeys(ks: seq<string>, p: nat, k: string)
    requires p <= |ks| && k !in ks
    ensures forall k' :: k' in ks[..p] + [k] + ks[p..] <==> k' in ks || k' == k
    ensures Distinct(ks) ==> Distinct(ks[..p] + [k] + ks[p..])
  {
    var r := ks[..p] + [k] + ks[p..];
    assert ks == ks[..p] + ks[p..];
    if Distinct(ks) {
      forall i, j | 0 <= i < j < |r| ensures r[i] != r[j] {
        var i' := if i < p then i else i - 1;
        var j' := if j < p then j else j - 1;
        if i != p && j != p {
          assert r[i] == ks[i'] && r[j] == ks[j'];
        } else if i == p {
          assert r[j] == ks[j'];
        } else {
          assert r[i] == ks[i'];
        }
      }
    }
  }

  /** A key absent from `fs` placed anywhere reads its value, and every other key reads as before. */
  lemma {:induction false} LookupInsert(fs: Fields, p: nat, k: string, v: Json, k': string)
    requires p <= |fs| && k !in Keys(fs)
    ensures Lookup(Insert(fs, p, k, v), k') == if k' == k then v else Lookup(fs, k')
  {
    var r := Insert(fs, p, k, v);
    if p == 0 {
      assert r[1..] == fs;
      if k' != k && k' !in Keys(fs) {
        LookupMissing(fs, k');
      }
    } else {
      var tail := fs[1..];
      assert Keys(fs) == [fs[0].0] + Keys(tail);
      LookupInsert(tail, p - 1, k, v, k');
      assert r[1..] == Insert(tail, p - 1, k, v);
      InsertKeys(Keys(tail), p - 1, k);
    }
  }

  /**
   * Assigning property `k` as an object literal or a spread does: an
   * existing key keeps its position and takes the new value; a new name goes
   * last; a new array index goes among the leading indices, in ascending
   * order, where JavaScript enumerates it.
   */
  function Put(fs: Fields, k: string, v: Json): (r: Fields)
    ensures Lookup(r, k) == v
    ensures forall k' :: k' != k ==> Lookup(r, k') == Lookup(fs, k')
    ensures forall k' :: k' in Keys(r) <==> k' in Keys(fs) || k' == k
    ensures |r| == if k in Keys(fs) then |fs| else |fs| + 1
    ensures k in Keys(fs) ==> Keys(r) == Keys(fs)
    ensures k !in Keys(fs) && !IsIndexKey(k) ==> Keys(r) == Keys(fs) + [k]
  {
    if k in Keys(fs) then Replace(fs, k, v)
    else
      var p := PutPos(fs, k);
      PutNew(fs, p, k, v);
      Insert(fs, p, k, v)
  }

  /** A new array-index key goes in after exactly the leading indices smaller than it. */
  lemma PutIndexPlaced(fs: Fields, k: string, v: Json)
    requires k !in Keys(fs) && IsIndexKey(k)
    ensures var p := InsertPos(Keys(fs), IndexValue(k)); Keys(Put(fs, k, v)) == Keys(fs)[..p] + [k] + Keys(fs)[p..]
  {
  }

  /** Where `Put` places a new key. */
  function PutPos(fs: Fields, k: string): nat {
    if IsIndexKey(k) then InsertPos(Keys(fs), IndexValue(k)) else |fs|
  }

  /** Assignment keeps keys distinct and in JavaScript order, and adds a new name at the end of the names. */
  lemma PutShape(fs: Fields, k: string, v: Json)
    ensures Named(Keys(Put(fs, k, v))) == if k in Keys(fs) || IsIndexKey(k) then Named(Keys(fs)) else Named(Keys(fs)) + [k]
    ensures JsOrdered(Keys(fs)) ==> JsOrdered(Keys(Put(fs, k, v)))
    ensures Distinct(Keys(fs)) ==> Distinct(Keys(Put(fs, k, v)))
  {
    if k !in Keys(fs) {
      var ks := Keys(fs);
      var p := PutPos(fs, k);
      PutNew(fs, p, k, v);
      InsertKeys(ks, p, k);
      InsertNamed(ks, p, k);
      if JsOrdered(ks) {
        if IsIndexKey(k) {
          InsertOrdered(ks, k);
        } else {
          assert ks[..p] + [k] + ks[p..] == ks + [k];
          AppendNameOrdered(ks, k);
        }
      }
    }
  }

  /** The lookups and keys of a new key placed where `Put` places it. */
  lemma PutNew(fs: Fields, p: nat, k: string, v: Json)
    requires k !in Keys(fs) && p == PutPos(fs, k)
    ensures p <= |fs|
    ensures Lookup(Insert(fs, p, k, v), k) == v
    ensures forall k' :: k' != k ==> Lookup(Insert(fs, p, k, v), k') == Lookup(fs, k')
    ensures forall k' :: k' in Keys(Insert(fs, p, k, v)) <==> k' in Keys(fs) || k' == k
    ensures !IsIndexKey(k) ==> Keys(Insert(fs, p, k, v)) == Keys(fs) + [k]
  {
    LookupInsert(fs, p, k, v, k);
    forall k' | k' != k ensures Lookup(Insert(fs, p, k, v), k') == Lookup(fs, k') {
      LookupInsert(fs, p, k, v, k');
    }
    InsertKeys(Keys(fs), p, k);
  }

  lemma NamedSingle(k: string)
    ensures Named([k]) == if IsIndexKey(k) then [] else [k]
  {
    assert [k][1..] == [];
  }

  lemma NamedSplit(a: seq<string>, k: string, b: seq<string>)
    ensures Named(a + [k] + b) == Named(a) + Named([k]) + Named(b)
  {
    NamedAppend(a + [k], b);
    NamedAppend(a, [k]);
  }

  lemma NamedIndexDrop(a: seq<string>, k: string, b: seq<string>)
    requires IsIndexKey(k)
    ensures Named(a + [k] + b) == Named(a + b)
  {
    NamedSplit(a, k, b);
    NamedSingle(k);
    NamedAppend(a, b);
  }

  lemma NamedNameAppend(a: seq<string>, k: string)
    requires !IsIndexKey(k)
    ensures Named(a + [k]) == Named(a) + [k]
  {
    NamedAppend(a, [k]);
    NamedSingle(k);
  }

  lemma InsertNamed(ks: seq<string>, p: nat, k: string)
    requires p <= |ks| && (IsIndexKey(k) || p == |ks|)
    ensures Named(ks[..p] + [k] + ks[p..]) == if IsIndexKey(k) then Named(ks) else Named(ks) + [k]
  {
    if IsIndexKey(k) {
      NamedIndexDrop(ks[..p], k, ks[p..]);
      assert ks[..p] + ks[p..] == ks;
    } else {
      NamedNameAppend(ks, k);
      assert ks[..p] == ks && ks[p..] == [];
      assert ks[..p] + [k] + ks[p..] == ks + [k];
    }
  }

  /** `{...base, ...extra}`: the properties of `extra` are assigned, in order, over those of `base`. */
  function Merge(base: Fields, extra: Fields): Fields
    decreases |extra|
  {
    if extra == [] then base else Merge(Put(base, extra[0].0, extra[0].1), extra[1..])
  }

  /** After a merge, a key of `extra` reads as in `extra` (later key wins); every other key reads as in `base`. */
  lemma {:induction false} MergeLookup(base: Fields, extra: Fields, k: string)
    ensures Lookup(Merge(base, extra), k) == if k in Keys(extra) then Lookup(extra, k) else Lookup(base, k)
    decreases |extra|
  {
    if extra == [] {
    } else {
      var e, rest := extra[0], extra[1..];
      var p := Put(base, e.0, e.1);
      MergeLookup(p, rest, k);
      assert Merge(base, extra) == Merge(p, rest);
      assert Keys(extra) == [e.0] + Keys(rest);
      assert Keys(extra)[1..] == Keys(rest);
      if k in Keys(rest) {
        assert Lookup(extra, k) == Lookup(rest, k);
      } else if k == e.0 {
        assert Lookup(extra, k) == e.1 && Lookup(p, k) == e.1;
      } else {
        assert k !in Keys(extra) && Lookup(p, k) == Lookup(base, k);
      }
    }
  }

  /** A merge has exactly the keys of both sides and at least as many members as `base`. */
  lemma {:induction false} MergeKeys(base: Fields, extra: Fields)
    ensures |Merge(base, extra)| >= |base|
    ensures forall k :: k in Keys(Merge(base, extra)) <==> k in Keys(base) || k in Keys(extra)
    decreases |extra|
  {
    if extra != [] {
      var e := extra[0];
      MergeKeys(Put(base, e.0, e.1), extra[1..]);
      assert Keys(extra) == [e.0] + Keys(extra[1..]);
    }
  }

  /** A merge keeps the names of `base` first among the names, in their order (array indices of `extra` go before them). */
  lemma {:induction false} MergeNamed(base: Fields, extra: Fields)
    ensures |Named(Keys(Merge(base, extra)))| >= |Named(Keys(base))|
    ensures Named(Keys(Merge(base, extra)))[..|Named(Keys(base))|] == Named(Keys(base))
    decreases |extra|
  {
    if extra != [] {
      var e := extra[0];
      var p := Put(base, e.0, e.1);
      PutShape(base, e.0, e.1);
      MergeNamed(p, extra[1..]);
      var m := Named(Keys(Merge(base, extra)));
      var nb := Named(Keys(base));
      assert Named(Keys(p))[..|nb|] == nb;
      assert m[..|nb|] == m[..|Named(Keys(p))|][..|nb|];
    }
  }

  /** A merge into an object with distinct keys, in JavaScript order, keeps both. */
  lemma {:induction false} MergeWellFormed(base: Fields, extra: Fields)
    ensures Distinct(Keys(base)) ==> Distinct(Keys(Merge(base, extra)))
    ensures JsOrdered(Keys(base)) ==> JsOrdered(Keys(Merge(base, extra)))
    decreases |extra|
  {
    if extra != [] {
      PutShape(base, extra[0].0, extra[0].1);
      MergeWellFormed(Put(base, extra[0].0, extra[0].1), extra[1..]);
    }
  }

  /** The members JSON.stringify writes for an object: those whose value is not `undefined`. */
  function Serialized(fs: Fields): (r: Fields)
    ensures forall p :: p in r <==> p in fs && p.1 != Undefined
  {
    if fs == [] then []
    else
      var rest := Serialized(fs[1..]);
      assert forall p :: p in fs <==> p == fs[0] || p in fs[1..];
      (if fs[0].1 == Undefined then [] else [fs[0]]) + rest
  }

  /** JSON.stringify writes the kept members in the object's own order: serializing distributes over concatenation. */
  lemma {:induction false} SerializedAppend(a: Fields, b: Fields)
    ensures Serialized(a + b) == Serialized(a) + Serialized(b)
  {
    if a == [] {
      assert a + b == b;
    } else {
      var head := if a[0].1 == Undefined then [] else [a[0]];
      calc {
        Serialized(a + b);
        head + Serialized((a + b)[1..]);
        { assert (a + b)[1..] == a[1..] + b; }
        head + Serialized(a[1..] + b);
        { SerializedAppend(a[1..], b); }
        head + (Serialized(a[1..]) + Serialized(b));
        (head + Serialized(a[1..])) + Serialized(b);
      }
    }
  }

  /** In an object with distinct keys, a key is written by JSON.stringify exactly when it is present and not `undefined`. */
  lemma SerializedKey(fs: Fields, k: string)
    requires Distinct(Keys(fs))
    ensures k in Keys(Serialized(fs)) <==> k in Keys(fs) && Lookup(fs, k) != Undefined
  {
    var wire := Serialized(fs);
    if k in Keys(wire) {
      var i :| 0 <= i < |wire| && Keys(wire)[i] == k;
      assert wire[i] in fs;
      var j :| 0 <= j < |fs| && fs[j] == wire[i];
      assert Keys(fs)[j] == k;
      LookupDistinct(fs, j);
    }
    if k in Keys(fs) && Lookup(fs, k) != Undefined {
      var j :| 0 <= j < |fs| && Keys(fs)[j] == k;
      LookupDistinct(fs, j);
      assert fs[j] in wire;
      var i :| 0 <= i < |wire| && wire[i] == fs[j];
      assert Keys(wire)[i] == k;
    }
  }

  /** A property name, or an array index as in `a[0]`. */
  datatype Key = Name(name: string) | Index(index: nat)

  function KeyString(k: Key): string {
    match k
    case Name(s) => s
    case Index(i) => NatToString(i)
  }

  /**
   * `v?.[k]`: `undefined` when `v` is null or undefined. The names read by the
   * adapters are neither indices nor `length`, nor inherited by strings,
   * arrays, numbers or booleans, so on those values a name reads `undefined`.
   */
  function Prop(v: Json, k: Key): Json {
    match v
    case Obj(fs) => Lookup(fs, KeyString(k))
    case Arr(xs) => if k.Index? && k.index < |xs| then xs[k.index] else Undefined
    case Str(s) => if k.Index? && k.index < |s| then Str([s[k.index]]) else Undefined
    case _ => Undefined
  }

  /** `v?.k1?.k2 ... ?.kn`: optional chaining through a path of properties. */
  function OptPath(v: Json, ks: seq<Key>): Json
    decreases |ks|
  {
    if ks == [] then v else OptPath(Prop(v, ks[0]), ks[1..])
  }

  /** What a thrown value is: an `Error` object with its message, or something else. */
  datatype Thrown = ErrorObject(message: string) | OtherValue

  /** How an expression completes: with a value, or by throwing. */
  datatype Completion<+T> = Normal(value: T) | Abrupt(thrown: Thrown) {
    predicate IsFailure() {
      Abrupt?
    }

    function PropagateFailure<U>(): Completion<U>
      requires Abrupt?
    {
      Abrupt(thrown)
    }

    function Extract(): T
      requires Normal?
    {
      value
    }
  }

  /**
   * What the JavaScript engine contributes and this model leaves
   * uninterpreted: the text JSON.stringify produces for a value, and the
   * message of the TypeError raised by reading property `k` of `v`.
   */
  datatype Engine = Engine(stringify: Json -> string, accessError: (Json, Key) -> string)

  /** `v.k1.k2 ... .kn` without optional chaining: reading a property of null or undefined throws a TypeError. */
  function GetPath(v: Json, ks: seq<Key>, eng: Engine): Completion<Json>
    decreases |ks|
  {
    if ks == [] then Normal(v)
    else if Nullish(v) then Abrupt(ErrorObject(eng.accessError(v, ks[0])))
    else GetPath(Prop(v, ks[0]), ks[1..], eng)
  }

  /** What a plain read path throws is always a TypeError, an `Error` object. */
  lemma {:induction false} GetPathThrowsErrors(v: Json, ks: seq<Key>, eng: Engine)
    ensures GetPath(v, ks, eng).Abrupt? ==> GetPath(v, ks, eng).thrown.ErrorObject?
    decreases |ks|
  {
    if ks != [] && !Nullish(v) {
      GetPathThrowsErrors(Prop(v, ks[0]), ks[1..], eng);
    }
  }

  /** Step `j` of the path reads from the first value on it that is null or undefined. */
  predicate FirstNullishAt(v: Json, ks: seq<Key>, j: int) {
    0 <= j < |ks| && Nullish(OptPath(v, ks[..j])) && forall i :: 0 <= i < j ==> !Nullish(OptPath(v, ks[..i]))
  }

  /** A failing plain read path throws the TypeError of reading its key from the first null or undefined value on it. */
  lemma {:induction false} GetPathError(v: Json, ks: seq<Key>, eng: Engine)
    ensures GetPath(v, ks, eng).Abrupt? ==>
      exists j :: FirstNullishAt(v, ks, j) && GetPath(v, ks, eng).thrown == ErrorObject(eng.accessError(OptPath(v, ks[..j]), ks[j]))
    decreases |ks|
  {
    if ks != [] && GetPath(v, ks, eng).Abrupt? {
      assert OptPath(v, ks[..0]) == v;
      if Nullish(v) {
        assert FirstNullishAt(v, ks, 0);
      } else {
        var w := Prop(v, ks[0]);
        GetPathError(w, ks[1..], eng);
        var j :| FirstNullishAt(w, ks[1..], j) && GetPath(w, ks[1..], eng).thrown == ErrorObject(eng.accessError(OptPath(w, ks[1..][..j]), ks[1..][j]));
        forall i | 1 <= i <= j + 1 ensures OptPath(v, ks[..i]) == OptPath(w, ks[1..][..i - 1]) {
          assert ks[..i][1..] == ks[1..][..i - 1];
        }
        assert FirstNullishAt(v, ks, j + 1);
      }
    }
  }

  /**
   * A plain read path throws exactly when some value it reads from is null or
   * undefined; otherwise it yields what optional chaining yields.
   */
  lemma {:induction false} GetPathAgrees(v: Json, ks: seq<Key>, eng: Engine)
    ensures GetPath(v, ks, eng).Normal? <==> forall j :: 0 <= j < |ks| ==> !Nullish(OptPath(v, ks[..j]))
    ensures GetPath(v, ks, eng).Normal? ==> GetPath(v, ks, eng).value == OptPath(v, ks)
    decreases |ks|
  {
    if ks != [] {
      var w := Prop(v, ks[0]);
      GetPathAgrees(w, ks[1..], eng);
      assert OptPath(v, ks[..0]) == v;
      forall j | 1 <= j <= |ks| ensures OptPath(v, ks[..j]) == OptPath(w, ks[1..][..j - 1]) {
        assert ks[..j][1..] == ks[1..][..j - 1];
      }
      if !Nullish(v) && GetPath(w, ks[1..], eng).Normal? {
        forall j | 0 <= j < |ks| ensures !Nullish(OptPath(v, ks[..j])) {
          if j > 0 {
            assert OptPath(v, ks[..j]) == OptPath(w, ks[1..][..j - 1]);
          }
        }
      }
      if forall j :: 0 <= j < |ks| ==> !Nullish(OptPath(v, ks[..j])) {
        forall j | 0 <= j < |ks| - 1 ensures !Nullish(OptPath(w, ks[1..][..j])) {
          assert OptPath(v, ks[..j + 1]) == OptPath(w, ks[1..][..j]);
        }
      }
    }
  }

  /**
   * `{...v}`: the own enumerable properties object spread copies from a JSON
   * value; an array or a string spreads its indices, other primitives nothing.
   */
  function Spread(v: Json): (fs: Fields)
    ensures v.Obj? ==> fs == v.fields
    ensures !Truthy(v) ==> fs == []
  {
    match v
    case Obj(fs) => fs
    case Arr(xs) => seq(|xs|, i requires 0 <= i < |xs| => (NatToString(i), xs[i]))
    case Str(s) => seq(|s|, i requires 0 <= i < |s| => (NatToString(i), Str([s[i]])))
    case _ => []
  }
}
