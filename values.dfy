/** The Ruby data the library builds and inspects: `nil`, booleans, integers, strings, symbols,
    arrays, and hashes keyed by symbols or strings. A hash keeps its entries in insertion order
    and, as Ruby's Hash does, holds each key at most once. Payloads are such values; `to_json`
    on them is not part of this model. */
module Values {
  import opened Wrappers
  import opened Text

  datatype Key = KSym(name: string) | KStr(name: string)

  datatype Value =
    | VNil
    | VBool(b: bool)
    | VInt(i: int)
    | VStr(s: string)
    | VSym(sym: string)
    | VArr(items: seq<Value>)
    | VHash(fields: seq<(Key, Value)>)

  type Fields = seq<(Key, Value)>

  /** Ruby truthiness: everything except `nil` and `false`. */
  predicate Truthy(v: Value) {
    !(v.VNil? || v == VBool(false))
  }

  /** Ruby's `a || b` */
  function Or(a: Value, b: Value): (r: Value)
    ensures Truthy(a) ==> r == a
    ensures !Truthy(a) ==> r == b
  {
    if Truthy(a) then a else b
  }

  function Sym(name: string): Key { KSym(name) }

  function Str(name: string): Key { KStr(name) }

  predicate HasKey(h: Fields, k: Key) {
    exists i :: 0 <= i < |h| && h[i].0 == k
  }

  /** The keys of a hash, in order. */
  function Keys(h: Fields): (ks: seq<Key>)
    ensures |ks| == |h|
    ensures forall i :: 0 <= i < |h| ==> ks[i] == h[i].0
  {
    seq(|h|, i requires 0 <= i < |h| => h[i].0)
  }

  predicate UniqueKeys(h: Fields) {
    forall i, j :: 0 <= i < j < |h| ==> h[i].0 != h[j].0
  }

  /** The position of the first occurrence of `k` in `ks`. */
  function IndexOf(ks: seq<Key>, k: Key): (r: Option<nat>)
    ensures r.None? <==> forall j :: 0 <= j < |ks| ==> ks[j] != k
    ensures r.Some? ==> r.value < |ks| && ks[r.value] == k && forall j :: 0 <= j < r.value ==> ks[j] != k
  {
    if ks == [] then None
    else if ks[0] == k then Some(0)
    else
      match IndexOf(ks[1..], k)
      case None => None
      case Some(i) => Some(i + 1)
  }

  lemma IndexOfIs(ks: seq<Key>, k: Key, i: nat)
    requires i < |ks| && ks[i] == k
    requires forall j :: 0 <= j < i ==> ks[j] != k
    ensures IndexOf(ks, k) == Some(i)
  {
    assert IndexOf(ks, k).Some? by { assert ks[i] == k; }
  }

  /** The value of the first entry for `k`, if any (a well-formed hash has only one). */
  function Lookup(h: Fields, k: Key): (r: Option<Value>)
    ensures r.None? <==> !HasKey(h, k)
    ensures r.Some? ==> exists i :: 0 <= i < |h| && h[i] == (k, r.value)
  {
    match IndexOf(Keys(h), k)
    case None => None
    case Some(i) => Some(h[i].1)
  }

  /** Ruby's `h[k]`: the value stored under `k`, or `nil`. */
  function At(h: Fields, k: Key): Value {
    Lookup(h, k).GetOr(VNil)
  }

  /** Ruby's `h[k] = v`: an existing key keeps its position and takes the new value;
      a new key goes at the end. */
  function Put(h: Fields, k: Key, v: Value): (r: Fields)
    ensures HasKey(h, k) ==> |r| == |h| && Keys(r) == Keys(h)
    ensures !HasKey(h, k) ==> r == h + [(k, v)]
  {
    match IndexOf(Keys(h), k)
    case None => h + [(k, v)]
    case Some(i) =>
      var r := h[i := (k, v)];
      assert Keys(r) == Keys(h);
      r
  }

  /** After `h[k] = v`, `h[k]` is `v` and every other key reads as before. */
  lemma PutLookup(h: Fields, k: Key, v: Value)
    ensures Lookup(Put(h, k, v), k) == Some(v)
    ensures forall k' :: k' != k ==> Lookup(Put(h, k, v), k') == Lookup(h, k')
  {
    var r := Put(h, k, v);
    if !HasKey(h, k) {
      forall k' | k' != k ensures Lookup(r, k') == Lookup(h, k') {
        assert Keys(r) == Keys(h) + [k];
        if IndexOf(Keys(h), k').Some? {
          IndexOfIs(Keys(r), k', IndexOf(Keys(h), k').value);
        } else {
          assert forall j :: 0 <= j < |Keys(r)| ==> Keys(r)[j] != k';
        }
      }
      IndexOfIs(Keys(r), k, |h|);
    }
  }

  /** `h[k] = v` keeps a hash free of duplicate keys and adds exactly `k` to its keys. */
  lemma PutKeys(h: Fields, k: Key, v: Value)
    ensures UniqueKeys(h) ==> UniqueKeys(Put(h, k, v))
    ensures forall k' :: HasKey(Put(h, k, v), k') <==> HasKey(h, k') || k' == k
  {
    var r := Put(h, k, v);
    if HasKey(h, k) {
      forall k' ensures HasKey(r, k') <==> HasKey(h, k') {
        if HasKey(r, k') {
          var i :| 0 <= i < |r| && r[i].0 == k';
          assert Keys(r)[i] == k';
        }
        if HasKey(h, k') {
          var i :| 0 <= i < |h| && h[i].0 == k';
          assert Keys(h)[i] == k';
          assert r[i].0 == k';
        }
      }
      assert forall i :: 0 <= i < |r| ==> r[i].0 == Keys(h)[i];
    } else {
      assert r[|h|].0 == k;
      forall k' | HasKey(r, k') ensures HasKey(h, k') || k' == k {
        var i :| 0 <= i < |r| && r[i].0 == k';
        if i < |h| { assert h[i].0 == k'; }
      }
      forall k' | HasKey(h, k') ensures HasKey(r, k') {
        var i :| 0 <= i < |h| && h[i].0 == k';
        assert r[i].0 == k';
      }
    }
  }

  /** The value of the last entry for `k` in `o`, if any: what survives when the entries are
      stored one after the other. */
  function Latest(o: Fields, k: Key): (r: Option<Value>)
    ensures r.None? <==> !HasKey(o, k)
    ensures r.Some? ==> exists i :: 0 <= i < |o| && o[i] == (k, r.value)
  {
    if o == [] then None
    else if o[|o| - 1].0 == k then Some(o[|o| - 1].1)
    else
      var r := Latest(o[..|o| - 1], k);
      assert HasKey(o, k) ==> HasKey(o[..|o| - 1], k) by {
        if HasKey(o, k) {
          var i :| 0 <= i < |o| && o[i].0 == k;
          assert o[..|o| - 1][i].0 == k;
        }
      }
      assert r.Some? ==> exists i :: 0 <= i < |o| && o[i] == (k, r.value) by {
        if r.Some? {
          var i :| 0 <= i < |o| - 1 && o[..|o| - 1][i] == (k, r.value);
          assert o[i] == (k, r.value);
        }
      }
      r
  }

  /** `h.merge(other)`, which is also what storing the pairs of `other` one after the other with
      `h[k] = v` gives: a key already present keeps its place and takes the new value, a new key
      goes at the end, and a later pair for the same key wins. */
  function Merge(h: Fields, other: Fields): (r: Fields)
    ensures UniqueKeys(h) ==> UniqueKeys(r)
    ensures forall k :: HasKey(r, k) <==> HasKey(h, k) || HasKey(other, k)
    ensures |r| <= |h| + |other|
    decreases |other|
  {
    if other == [] then h
    else
      var last := other[|other| - 1];
      var m := Merge(h, other[..|other| - 1]);
      PutKeys(m, last.0, last.1);
      assert forall k :: HasKey(other, k) <==> HasKey(other[..|other| - 1], k) || k == last.0 by {
        forall k ensures HasKey(other, k) <==> HasKey(other[..|other| - 1], k) || k == last.0 {
          if HasKey(other, k) && k != last.0 {
            var i :| 0 <= i < |other| && other[i].0 == k;
            assert other[..|other| - 1][i].0 == k;
          }
          if HasKey(other[..|other| - 1], k) {
            var i :| 0 <= i < |other| - 1 && other[..|other| - 1][i].0 == k;
            assert other[i].0 == k;
          }
        }
      }
      Put(m, last.0, last.1)
  }

  lemma HasKeyInit(o: Fields, k: Key)
    requires o != []
    ensures HasKey(o, k) <==> HasKey(o[..|o| - 1], k) || o[|o| - 1].0 == k
  {
    if HasKey(o, k) && o[|o| - 1].0 != k {
      var i :| 0 <= i < |o| && o[i].0 == k;
      assert i < |o| - 1;
      assert o[..|o| - 1][i].0 == k;
    }
    if HasKey(o[..|o| - 1], k) {
      var i :| 0 <= i < |o| - 1 && o[..|o| - 1][i].0 == k;
      assert o[i].0 == k;
    }
  }

  /** After a merge, a key reads as the last pair of `other` that carries it, or as before. */
  lemma {:induction false} MergeLookup(h: Fields, other: Fields, k: Key)
    ensures Lookup(Merge(h, other), k) == if HasKey(other, k) then Latest(other, k) else Lookup(h, k)
    decreases |other|
  {
    if other != [] {
      var last := other[|other| - 1];
      var init := other[..|other| - 1];
      var m := Merge(h, init);
      assert Merge(h, other) == Put(m, last.0, last.1);
      if k == last.0 {
        PutLookup(m, last.0, last.1);
        assert Latest(other, k) == Some(last.1);
        assert HasKey(other, k) by { assert other[|other| - 1].0 == k; }
      } else {
        assert Lookup(Merge(h, other), k) == Lookup(m, k) by { PutLookup(m, last.0, last.1); }
        assert Latest(other, k) == Latest(init, k);
        HasKeyInit(other, k);
        MergeLookup(h, init, k);
        assert Lookup(m, k) == (if HasKey(init, k) then Latest(init, k) else Lookup(h, k));
      }
    } else {
      assert !HasKey(other, k);
    }
  }

  /** The value `Latest` finds belongs to the last pair for `k`. */
  lemma {:induction false} LatestIsLast(o: Fields, k: Key)
    requires HasKey(o, k)
    ensures exists i :: 0 <= i < |o| && o[i] == (k, Latest(o, k).value) && forall j :: i < j < |o| ==> o[j].0 != k
    decreases |o|
  {
    var n := |o| - 1;
    if o[n].0 != k {
      var init := o[..n];
      HasKeyInit(o, k);
      LatestIsLast(init, k);
      var i :| 0 <= i < |init| && init[i] == (k, Latest(init, k).value) && forall j :: i < j < |init| ==> init[j].0 != k;
      assert o[i] == init[i];
      assert forall j :: i < j < |o| ==> o[j].0 != k by {
        forall j | i < j < |o| ensures o[j].0 != k {
          if j < n { assert o[j] == init[j]; }
        }
      }
    } else {
      assert o[n] == (k, Latest(o, k).value);
    }
  }

  /** Merging into `h` reads every key as `MergeLookup` says. */
  lemma MergeLookupAll(h: Fields, other: Fields)
    ensures forall k :: Lookup(Merge(h, other), k) == if HasKey(other, k) then Latest(other, k) else Lookup(h, k)
  {
    forall k ensures Lookup(Merge(h, other), k) == if HasKey(other, k) then Latest(other, k) else Lookup(h, k) {
      MergeLookup(h, other, k);
    }
  }

  /** The position of the first occurrence of `k` in `ks`, or `|ks|` when there is none. */
  function Rank(ks: seq<Key>, k: Key): (r: nat)
    ensures r <= |ks|
    ensures r < |ks| <==> k in ks
  {
    match IndexOf(ks, k)
    case None => |ks|
    case Some(i) => i
  }

  lemma RankAppend(ks: seq<Key>, x: Key, k: Key)
    ensures k in ks ==> Rank(ks + [x], k) == Rank(ks, k)
    ensures k !in ks && k == x ==> Rank(ks + [x], k) == |ks|
  {
    var t := ks + [x];
    if k in ks {
      var i := IndexOf(ks, k).value;
      IndexOfIs(t, k, i);
    } else if k == x {
      IndexOfIs(t, k, |ks|);
    }
  }

  /** The keys of `r` appear in the order of their first occurrence in `ks`. */
  ghost predicate InFirstOrder(ks: seq<Key>, r: Fields) {
    forall i, j :: 0 <= i < j < |r| ==> Rank(ks, r[i].0) < Rank(ks, r[j].0)
  }

  /** Storing pairs one after the other into `{}` lists the keys in the order in which they first
      occur. */
  lemma {:induction false} MergeOrder(pairs: Fields)
    ensures InFirstOrder(Keys(pairs), Merge([], pairs))
    decreases |pairs|
  {
    if pairs != [] {
      var n := |pairs| - 1;
      var init, last := pairs[..n], pairs[n];
      MergeOrder(init);
      MergeOrderStep(init, last);
      SplitLast(pairs);
    }
  }

  lemma SplitLast(s: Fields)
    requires |s| > 0
    ensures s == s[..|s| - 1] + [s[|s| - 1]]
  {
  }

  /** One more pair keeps the order: its key is new and goes last, or it was already there. */
  lemma MergeOrderStep(init: Fields, last: (Key, Value))
    requires InFirstOrder(Keys(init), Merge([], init))
    ensures InFirstOrder(Keys(init + [last]), Merge([], init + [last]))
  {
    var m := Merge([], init);
    KeysOfMerge(init);
    PutOrder(Keys(init), m, last.0, last.1);
    MergeSnoc(init, last);
    KeysSnoc(init, last);
  }

  lemma MergeSnoc(init: Fields, e: (Key, Value))
    ensures Merge([], init + [e]) == Put(Merge([], init), e.0, e.1)
  {
    var o := init + [e];
    assert o[..|o| - 1] == init && o[|o| - 1] == e;
  }

  lemma KeysSnoc(h: Fields, e: (Key, Value))
    ensures Keys(h + [e]) == Keys(h) + [e.0]
  {
  }

  lemma KeysOfMerge(pairs: Fields)
    ensures forall i :: 0 <= i < |Merge([], pairs)| ==> Merge([], pairs)[i].0 in Keys(pairs)
    ensures forall k :: HasKey(Merge([], pairs), k) <==> k in Keys(pairs)
  {
    var m := Merge([], pairs);
    forall i | 0 <= i < |m| ensures m[i].0 in Keys(pairs) {
      assert HasKey(m, m[i].0);
      var j :| 0 <= j < |pairs| && pairs[j].0 == m[i].0;
      assert Keys(pairs)[j] == m[i].0;
    }
    forall k | k in Keys(pairs) ensures HasKey(m, k) {
      var j :| 0 <= j < |pairs| && Keys(pairs)[j] == k;
      assert pairs[j].0 == k;
    }
  }

  lemma PutOrder(ks: seq<Key>, m: Fields, k: Key, v: Value)
    requires forall i :: 0 <= i < |m| ==> m[i].0 in ks
    requires InFirstOrder(ks, m)
    requires HasKey(m, k) <==> k in ks
    ensures InFirstOrder(ks + [k], Put(m, k, v))
  {
    var r := Put(m, k, v);
    forall i | 0 <= i < |m| ensures Rank(ks + [k], m[i].0) == Rank(ks, m[i].0) {
      RankAppend(ks, k, m[i].0);
    }
    if HasKey(m, k) {
      assert forall i :: 0 <= i < |r| ==> r[i].0 == m[i].0 by { assert Keys(r) == Keys(m); }
    } else {
      RankAppend(ks, k, k);
      assert r == m + [(k, v)];
    }
  }

  /** Ruby's `x[:name] || x['name']` on a caller-supplied hash; None when the receiver is not a
      hash (the source raises). */
  function Dual(v: Value, name: string): (r: Option<Value>)
    ensures v.VHash? <==> r.Some?
    ensures v.VHash? ==> r.value == Or(At(v.fields, KSym(name)), At(v.fields, KStr(name)))
  {
    if v.VHash? then Some(Or(At(v.fields, KSym(name)), At(v.fields, KStr(name)))) else None
  }

  /** A hash key as the Ruby value it is. */
  function KeyValue(k: Key): Value {
    match k
    case KSym(n) => VSym(n)
    case KStr(n) => VStr(n)
  }

  /** Ruby's `Array(x)`: nil gives [], an array itself, a hash its [key, value] pairs, and any
      other value a one-element array. */
  function ToArray(v: Value): (r: seq<Value>)
    ensures v.VNil? ==> r == []
    ensures v.VArr? ==> r == v.items
    ensures !v.VNil? && !v.VArr? && !v.VHash? ==> r == [v]
  {
    match v
    case VNil => []
    case VArr(items) => items
    case VHash(f) => seq(|f|, i requires 0 <= i < |f| => VArr([KeyValue(f[i].0), f[i].1]))
    case _ => [v]
  }

  /** Ruby's `x.empty?` on a caller-supplied value; None when it has no such method. */
  function IsEmpty(v: Value): (r: Option<bool>)
    ensures Length(v).Some? ==> r == Some(Length(v).value == 0)
  {
    match Length(v)
    case Some(n) => Some(n == 0)
    case None => None
  }

  /** Ruby's `h.compact`: the entries whose value is not `nil`, in order. */
  function Compact(h: Fields): (r: Fields)
    ensures |r| <= |h|
    ensures forall i :: 0 <= i < |r| ==> !r[i].1.VNil?
    ensures forall e :: e in r <==> e in h && !e.1.VNil?
  {
    if h == [] then []
    else if h[0].1.VNil? then Compact(h[1..])
    else [h[0]] + Compact(h[1..])
  }

  /** Ruby's `x[key]` with a string key on a value of unknown shape: a hash looks the key up,
      a string or symbol yields the key when it occurs in it (String#[] with a string argument)
      and nil otherwise, and every other receiver raises (None). */
  function Index(v: Value, key: string): (r: Option<Value>)
    ensures v.VHash? ==> r == Some(At(v.fields, KStr(key)))
    ensures v.VStr? ==> r == Some(if Contains(v.s, key) then VStr(key) else VNil)
    ensures (v.VNil? || v.VBool? || v.VInt? || v.VArr?) ==> r.None?
  {
    match v
    case VHash(f) => Some(At(f, KStr(key)))
    case VStr(s) => Some(if Contains(s, key) then VStr(key) else VNil)
    case VSym(s) => Some(if Contains(s, key) then VStr(key) else VNil)
    case _ => None
  }

  /** `x[key]` where the source relies on the receiver being indexable; `nil` when it is not
      (callers that care test `Index` first). */
  function Get(v: Value, key: string): Value {
    Index(v, key).GetOr(VNil)
  }

  /** The outcome of `JSON.parse` on a text: a value, or a parser error. */
  datatype Parsed = Parsed(value: Value) | ParseError(reason: string)

  /** Ruby's `x.length` where the source calls it on a caller-supplied value; None when the
      receiver has no `length` method. */
  function Length(v: Value): (r: Option<nat>)
    ensures v.VStr? ==> r == Some(|v.s|)
    ensures v.VArr? ==> r == Some(|v.items|)
    ensures v.VHash? ==> r == Some(|v.fields|)
  {
    match v
    case VStr(s) => Some(|s|)
    case VSym(s) => Some(|s|)
    case VArr(a) => Some(|a|)
    case VHash(f) => Some(|f|)
    case _ => None
  }

  /** The text of a value where it is interpolated into a message (`"#{v}"`) or converted with `to_s`. */
  function Render(v: Value): string {
    match v
    case VNil => ""
    case VBool(b) => if b then "true" else "false"
    case VInt(n) => IntToString(n)
    case VStr(s) => s
    case VSym(s) => s
    case _ => Inspect(v)
  }

  /** Ruby's `inspect`, used by `to_s` of arrays and hashes; strings are quoted without escaping. */
  function Inspect(v: Value): string {
    match v
    case VNil => "nil"
    case VBool(b) => if b then "true" else "false"
    case VInt(n) => IntToString(n)
    case VStr(s) => "\"" + s + "\""
    case VSym(s) => ":" + s
    case VArr(a) => "[" + Join(seq(|a|, i requires 0 <= i < |a| => Inspect(a[i])), ", ") + "]"
    case VHash(f) =>
      "{" + Join(seq(|f|, i requires 0 <= i < |f| => InspectKey(f[i].0) + " => " + Inspect(f[i].1)), ", ") + "}"
  }

  function InspectKey(k: Key): string {
    match k
    case KSym(n) => ":" + n
    case KStr(n) => "\"" + n + "\""
  }

  /** One item as `Array#join(sep)` writes it: an inner array is joined in place with the same
      separator, any other item by its `to_s`. */
  function JoinPiece(v: Value, sep: string): string
    decreases v
  {
    match v
    case VArr(a) => ArrayJoin(a, sep)
    case _ => Render(v)
  }

  /** The texts of the items, one per item. */
  function JoinPieces(items: seq<Value>, sep: string): (ps: seq<string>)
    decreases items, 0
    ensures |ps| == |items| && forall i :: 0 <= i < |items| ==> ps[i] == JoinPiece(items[i], sep)
  {
    if items == [] then [] else [JoinPiece(items[0], sep)] + JoinPieces(items[1..], sep)
  }

  /** Ruby's `Array#join(sep)`: the item texts with `sep` between them. */
  function ArrayJoin(items: seq<Value>, sep: string): string
    decreases items, 1
  {
    Join(JoinPieces(items, sep), sep)
  }

  /** Without inner arrays every item is written by its `to_s`. */
  lemma ArrayJoinFlat(items: seq<Value>, sep: string)
    requires forall i :: 0 <= i < |items| ==> !items[i].VArr?
    ensures JoinPieces(items, sep) == seq(|items|, i requires 0 <= i < |items| => Render(items[i]))
  {
  }

  /** `join` flattens: a non-empty inner array reads as if its items stood in its place. */
  lemma ArrayJoinFlattens(a: seq<Value>, b: seq<Value>, c: seq<Value>, sep: string)
    requires |b| > 0
    ensures ArrayJoin(a + [VArr(b)] + c, sep) == ArrayJoin(a + b + c, sep)
  {
    var pa, pb, pc := JoinPieces(a, sep), JoinPieces(b, sep), JoinPieces(c, sep);
    var nested, flat := a + [VArr(b)] + c, a + b + c;
    assert JoinPieces(nested, sep) == pa + [Join(pb, sep)] + pc by {
      assert JoinPiece(VArr(b), sep) == Join(pb, sep);
      forall i | 0 <= i < |nested| ensures JoinPieces(nested, sep)[i] == (pa + [Join(pb, sep)] + pc)[i] {
        if i == |a| {
          assert nested[i] == VArr(b);
        }
      }
    }
    assert JoinPieces(flat, sep) == pa + pb + pc by {
      assert forall i :: 0 <= i < |flat| ==> JoinPieces(flat, sep)[i] == (pa + pb + pc)[i];
    }
    JoinSplice(pa, [Join(pb, sep)], pc, sep);
    JoinSplice(pa, pb, pc, sep);
  }

  /** A Ruby value that counts as "blank" in the source's checks (`x.nil? || x.strip.empty?`). */
  predicate IsBlank(v: Option<string>) {
    v.None? || IsBlankText(v.value)
  }

  /** `v.nil? || v.strip.empty?` on a caller-supplied value; None when `v` is neither nil nor a
      string, where `strip` raises. */
  function NilOrBlank(v: Value): (r: Option<bool>)
    ensures v.VNil? ==> r == Some(true)
    ensures v.VStr? ==> r == Some(IsBlankText(v.s))
    ensures !v.VNil? && !v.VStr? ==> r.None?
  {
    match v
    case VNil => Some(true)
    case VStr(s) => Some(IsBlankText(s))
    case _ => None
  }

  /** `Some(v)` exactly when `c` holds. */
  function When(c: bool, v: Value): (r: Option<Value>)
    ensures r.Some? <==> c
    ensures c ==> r.value == v
  {
    if c then Some(v) else None
  }

  /** `h[k] = v` for `Some(v)`, nothing for `None`: Ruby's `h[k] = v if c` is
      `PutOpt(h, k, When(c, v))`. */
  function PutOpt(h: Fields, k: Key, o: Option<Value>): Fields {
    match o
    case Some(v) => Put(h, k, v)
    case None => h
  }

  /** The entry `(k, v)` for `Some(v)`, nothing for `None`. */
  function Entry(k: Key, o: Option<Value>): Fields {
    match o
    case Some(v) => [(k, v)]
    case None => []
  }

  /** Storing a key a hash does not have yet puts it at the end. */
  lemma PutOptNew(h: Fields, k: Key, o: Option<Value>)
    requires forall i :: 0 <= i < |h| ==> h[i].0 != k
    ensures PutOpt(h, k, o) == h + Entry(k, o)
  {
  }

  /** `h` holds exactly the entries of `m`: its keys are distinct and each key reads as `m` says
      (a key outside `m` is absent). Key order, which only `to_json` shows, is not part of it. */
  ghost predicate Holds(h: Fields, m: map<Key, Value>) {
    UniqueKeys(h) && forall k :: Lookup(h, k) == if k in m then Some(m[k]) else None
  }

  lemma HoldsLookup(h: Fields, m: map<Key, Value>, k: Key)
    requires Holds(h, m)
    ensures Lookup(h, k) == if k in m then Some(m[k]) else None
  {
  }

  /** `m` with the entry `k => v` for `Some(v)`, `m` itself for `None`. */
  function With(m: map<Key, Value>, k: Key, o: Option<Value>): map<Key, Value> {
    match o
    case Some(v) => m[k := v]
    case None => m
  }

  lemma PutHolds(h: Fields, m: map<Key, Value>, k: Key, v: Value)
    requires Holds(h, m)
    ensures Holds(Put(h, k, v), m[k := v])
  {
    PutLookup(h, k, v);
    PutKeys(h, k, v);
  }

  /** `h[k] = v if c` adds the entry `k => v` exactly when `c` holds. */
  lemma PutOptHolds(h: Fields, m: map<Key, Value>, k: Key, o: Option<Value>)
    requires Holds(h, m)
    ensures Holds(PutOpt(h, k, o), With(m, k, o))
  {
    if o.Some? {
      PutHolds(h, m, k, o.value);
    }
  }

  /** Two conditional entries under different keys can be added in either order. */
  lemma WithSwap(m: map<Key, Value>, k1: Key, o1: Option<Value>, k2: Key, o2: Option<Value>)
    requires k1 != k2
    ensures With(With(m, k1, o1), k2, o2) == With(With(m, k2, o2), k1, o1)
  {
  }

  /** A new key written at the end of a literal is a store of that key. */
  lemma Snoc(h: Fields, m: map<Key, Value>, k: Key, v: Value)
    requires Holds(h, m) && k !in m
    ensures Holds(h + [(k, v)], m[k := v])
  {
    PutHolds(h, m, k, v);
  }

  /** The hash literals of the source, one per size: distinct keys make each hold its entries. */
  lemma Hash1(k0: Key, v0: Value)
    ensures Holds([(k0, v0)], map[k0 := v0])
  {
    LookupUnique([(k0, v0)], 0);
  }

  lemma Hash2(k0: Key, v0: Value, k1: Key, v1: Value)
    requires k0 != k1
    ensures Holds([(k0, v0), (k1, v1)], map[k0 := v0, k1 := v1])
  {
    Hash1(k0, v0);
    Snoc([(k0, v0)], map[k0 := v0], k1, v1);
    assert [(k0, v0)] + [(k1, v1)] == [(k0, v0), (k1, v1)];
  }

  lemma Hash3(k0: Key, v0: Value, k1: Key, v1: Value, k2: Key, v2: Value)
    requires k0 != k1 && k0 != k2 && k1 != k2
    ensures Holds([(k0, v0), (k1, v1), (k2, v2)], map[k0 := v0, k1 := v1, k2 := v2])
  {
    Hash2(k0, v0, k1, v1);
    Snoc([(k0, v0), (k1, v1)], map[k0 := v0, k1 := v1], k2, v2);
    assert [(k0, v0), (k1, v1)] + [(k2, v2)] == [(k0, v0), (k1, v1), (k2, v2)];
  }

  lemma Hash4(k0: Key, v0: Value, k1: Key, v1: Value, k2: Key, v2: Value, k3: Key, v3: Value)
    requires k0 != k1 && k0 != k2 && k0 != k3 && k1 != k2 && k1 != k3 && k2 != k3
    ensures Holds([(k0, v0), (k1, v1), (k2, v2), (k3, v3)], map[k0 := v0, k1 := v1, k2 := v2, k3 := v3])
  {
    Hash3(k0, v0, k1, v1, k2, v2);
    Snoc([(k0, v0), (k1, v1), (k2, v2)], map[k0 := v0, k1 := v1, k2 := v2], k3, v3);
    assert [(k0, v0), (k1, v1), (k2, v2)] + [(k3, v3)] == [(k0, v0), (k1, v1), (k2, v2), (k3, v3)];
  }

  lemma Hash5(k0: Key, v0: Value, k1: Key, v1: Value, k2: Key, v2: Value, k3: Key, v3: Value, k4: Key, v4: Value)
    requires k0 != k1 && k0 != k2 && k0 != k3 && k1 != k2 && k1 != k3 && k2 != k3
    requires k4 != k0 && k4 != k1 && k4 != k2 && k4 != k3
    ensures Holds([(k0, v0), (k1, v1), (k2, v2), (k3, v3), (k4, v4)],
                  map[k0 := v0, k1 := v1, k2 := v2, k3 := v3, k4 := v4])
  {
    Hash4(k0, v0, k1, v1, k2, v2, k3, v3);
    Snoc([(k0, v0), (k1, v1), (k2, v2), (k3, v3)], map[k0 := v0, k1 := v1, k2 := v2, k3 := v3], k4, v4);
    assert [(k0, v0), (k1, v1), (k2, v2), (k3, v3)] + [(k4, v4)] == [(k0, v0), (k1, v1), (k2, v2), (k3, v3), (k4, v4)];
  }

  lemma Hash6(k0: Key, v0: Value, k1: Key, v1: Value, k2: Key, v2: Value, k3: Key, v3: Value, k4: Key, v4: Value,
              k5: Key, v5: Value)
    requires k0 != k1 && k0 != k2 && k0 != k3 && k1 != k2 && k1 != k3 && k2 != k3
    requires k4 != k0 && k4 != k1 && k4 != k2 && k4 != k3
    requires k5 != k0 && k5 != k1 && k5 != k2 && k5 != k3 && k5 != k4
    ensures Holds([(k0, v0), (k1, v1), (k2, v2), (k3, v3), (k4, v4), (k5, v5)],
                  map[k0 := v0, k1 := v1, k2 := v2, k3 := v3, k4 := v4, k5 := v5])
  {
    Hash5(k0, v0, k1, v1, k2, v2, k3, v3, k4, v4);
    Snoc([(k0, v0), (k1, v1), (k2, v2), (k3, v3), (k4, v4)], map[k0 := v0, k1 := v1, k2 := v2, k3 := v3, k4 := v4], k5, v5);
    assert [(k0, v0), (k1, v1), (k2, v2), (k3, v3), (k4, v4)] + [(k5, v5)] ==
           [(k0, v0), (k1, v1), (k2, v2), (k3, v3), (k4, v4), (k5, v5)];
  }

  /** In a hash whose keys are distinct, an entry is what its key reads as. */
  lemma LookupUnique(h: Fields, i: nat)
    requires i < |h| && forall j :: 0 <= j < |h| && j != i ==> h[j].0 != h[i].0
    ensures Lookup(h, h[i].0) == Some(h[i].1)
  {
    IndexOfIs(Keys(h), h[i].0, i);
  }

  /** In a hash whose keys are distinct, every entry is what its key reads as. */
  lemma UniqueLookups(h: Fields)
    requires UniqueKeys(h)
    ensures forall i :: 0 <= i < |h| ==> Lookup(h, h[i].0) == Some(h[i].1)
  {
    forall i | 0 <= i < |h| ensures Lookup(h, h[i].0) == Some(h[i].1) { LookupUnique(h, i); }
  }

  /** `compact` works entry by entry. */
  lemma {:induction false} CompactAppend(a: Fields, b: Fields)
    ensures Compact(a + b) == Compact(a) + Compact(b)
  {
    if a != [] {
      assert (a + b)[0] == a[0] && (a + b)[1..] == a[1..] + b;
      CompactAppend(a[1..], b);
      if a[0].1.VNil? {
        assert Compact(a + b) == Compact(a[1..] + b);
      } else {
        assert Compact(a + b) == [a[0]] + Compact(a[1..] + b);
        assert Compact(a) == [a[0]] + Compact(a[1..]);
      }
    } else {
      assert a + b == b;
    }
  }

  /** `compact` leaves out a key whose every entry is nil. */
  lemma CompactDropsNil(h: Fields, k: Key)
    requires forall e :: e in h && e.0 == k ==> e.1.VNil?
    ensures !HasKey(Compact(h), k)
  {
  }
}
