/**
 * JSON values, the canonical form they are hashed in, and digests over it. An object is
 * the list of its fields in enumeration order; keys of one object are distinct. A number is
 * the text it is printed as.
 */
module JsonCanonical {

  datatype Field = Field(key: string, value: Json)

  datatype Json =
    | JNull
    | JBool(b: bool)
    | JNum(text: string)
    | JStr(s: string)
    | JArr(items: seq<Json>)
    | JObj(fields: seq<Field>)

  /** Assigning this key to an object sets its prototype and leaves no field behind. */
  const PROTO := "__proto__"

  // --------------------------------------------------------------- string order

  predicate Less(a: string, b: string) {
    |b| > 0 && (|a| == 0 || a[0] < b[0] || (a[0] == b[0] && Less(a[1..], b[1..])))
  }

  lemma {:induction false} LessIsTotal(a: string, b: string)
    ensures Less(a, b) || Less(b, a) || a == b
    decreases |a|
  {
    if |a| > 0 && |b| > 0 && a[0] == b[0] {
      LessIsTotal(a[1..], b[1..]);
      assert a == [a[0]] + a[1..] && b == [b[0]] + b[1..];
    }
  }

  lemma {:induction false} LessIsStrict(a: string, b: string)
    ensures !(Less(a, b) && Less(b, a)) && !Less(a, a)
    decreases |a|
  {
    if |a| > 0 {
      LessIsStrict(a[1..], if |b| > 0 then b[1..] else b);
    }
  }

  lemma {:induction false} LessIsTransitive(a: string, b: string, c: string)
    requires Less(a, b) && Less(b, c)
    ensures Less(a, c)
    decreases |a|
  {
    if |a| > 0 && a[0] == b[0] && b[0] == c[0] {
      LessIsTransitive(a[1..], b[1..], c[1..]);
    }
  }

  // ------------------------------------------------------------- canonical form

  /** A field put in key order among fields that are in key order. */
  function Insert(f: Field, fs: seq<Field>): seq<Field> {
    if fs == [] || Less(f.key, fs[0].key) then [f] + fs else [fs[0]] + Insert(f, fs[1..])
  }

  /** The canonical form: object fields in key order at every depth. */
  function Canon(v: Json): Json
    decreases v, 0
  {
    match v
    case JArr(items) => JArr(CanonAll(items))
    case JObj(fields) => JObj(CanonFields(fields))
    case _ => v
  }

  function CanonAll(items: seq<Json>): (r: seq<Json>)
    ensures |r| == |items|
    ensures forall i :: 0 <= i < |items| ==> r[i] == Canon(items[i])
    decreases items, 1
  {
    if items == [] then [] else [Canon(items[0])] + CanonAll(items[1..])
  }

  function CanonFields(fs: seq<Field>): seq<Field>
    decreases fs, 1
  {
    if fs == [] then []
    else if fs[0].key == PROTO then CanonFields(fs[1..])
    else Insert(Field(fs[0].key, Canon(fs[0].value)), CanonFields(fs[1..]))
  }

  // --------------------------------------------------------------- object views

  function Keys(fs: seq<Field>): set<string> {
    set i | 0 <= i < |fs| :: fs[i].key
  }

  predicate DistinctKeys(fs: seq<Field>) {
    forall i, j :: 0 <= i < j < |fs| ==> fs[i].key != fs[j].key
  }

  predicate InKeyOrder(fs: seq<Field>) {
    forall i, j :: 0 <= i < j < |fs| ==> Less(fs[i].key, fs[j].key)
  }

  /** Keys are distinct in every object of the value. */
  predicate Proper(v: Json)
    decreases v
  {
    match v
    case JArr(items) => forall i :: 0 <= i < |items| ==> Proper(items[i])
    case JObj(fields) => DistinctKeys(fields) && forall i :: 0 <= i < |fields| ==> Proper(fields[i].value)
    case _ => true
  }

  /** No object of the value has a field named `__proto__`. */
  predicate NoProto(v: Json)
    decreases v
  {
    match v
    case JArr(items) => forall i :: 0 <= i < |items| ==> NoProto(items[i])
    case JObj(fields) => forall i :: 0 <= i < |fields| ==> fields[i].key != PROTO && NoProto(fields[i].value)
    case _ => true
  }

  /** In canonical form already. */
  predicate Canonical(v: Json)
    decreases v
  {
    match v
    case JArr(items) => forall i :: 0 <= i < |items| ==> Canonical(items[i])
    case JObj(fields) =>
      InKeyOrder(fields) && forall i :: 0 <= i < |fields| ==> fields[i].key != PROTO && Canonical(fields[i].value)
    case _ => true
  }

  /** Equal up to the order of object keys, at every depth. */
  predicate Same(a: Json, b: Json)
    decreases a
  {
    match a
    case JArr(xs) => b.JArr? && |xs| == |b.items| && forall i :: 0 <= i < |xs| ==> Same(xs[i], b.items[i])
    case JObj(fs) =>
      && b.JObj? && Keys(fs) == Keys(b.fields)
      && forall i, j :: 0 <= i < |fs| && 0 <= j < |b.fields| && fs[i].key == b.fields[j].key ==> Same(fs[i].value, b.fields[j].value)
    case _ => a == b
  }

  /** The value without any field named `__proto__`. */
  function Strip(v: Json): Json
    decreases v, 0
  {
    match v
    case JArr(items) => JArr(seq(|items|, i requires 0 <= i < |items| => Strip(items[i])))
    case JObj(fields) => JObj(StripFields(fields))
    case _ => v
  }

  function StripFields(fs: seq<Field>): seq<Field>
    decreases fs, 1
  {
    if fs == [] then []
    else if fs[0].key == PROTO then StripFields(fs[1..])
    else [Field(fs[0].key, Strip(fs[0].value))] + StripFields(fs[1..])
  }

  // -------------------------------------------------------- what Insert produces

  lemma {:induction false} InsertKeys(f: Field, fs: seq<Field>)
    ensures |Insert(f, fs)| == |fs| + 1
    ensures forall i :: 0 <= i < |Insert(f, fs)| ==> Insert(f, fs)[i] == f || Insert(f, fs)[i] in fs
    ensures f in Insert(f, fs) && forall g :: g in fs ==> g in Insert(f, fs)
    decreases |fs|
  {
    if fs != [] && !Less(f.key, fs[0].key) {
      InsertKeys(f, fs[1..]);
      assert fs == [fs[0]] + fs[1..];
      assert Insert(f, fs) == [fs[0]] + Insert(f, fs[1..]);
    }
  }

  lemma {:induction false} InsertInOrder(f: Field, fs: seq<Field>)
    requires InKeyOrder(fs) && forall i :: 0 <= i < |fs| ==> fs[i].key != f.key
    ensures InKeyOrder(Insert(f, fs))
    decreases |fs|
  {
    if fs == [] {
    } else if Less(f.key, fs[0].key) {
      forall j | 0 < j < |fs| ensures Less(f.key, fs[j].key) {
        LessIsTransitive(f.key, fs[0].key, fs[j].key);
      }
    } else {
      LessIsTotal(f.key, fs[0].key);
      InsertInOrder(f, fs[1..]);
      InsertKeys(f, fs[1..]);
      var r := Insert(f, fs[1..]);
      forall i | 0 <= i < |r| ensures Less(fs[0].key, r[i].key) {
        if r[i] != f {
          var k :| 0 <= k < |fs[1..]| && fs[1..][k] == r[i];
          assert fs[k + 1] == r[i];
        }
      }
    }
  }

  /** The fields of the canonical object are the given ones, canonical, in key order. */
  lemma {:induction false} CanonFieldsShape(fs: seq<Field>)
    requires DistinctKeys(fs)
    ensures InKeyOrder(CanonFields(fs))
    ensures forall i :: 0 <= i < |fs| && fs[i].key != PROTO ==> Field(fs[i].key, Canon(fs[i].value)) in CanonFields(fs)
    ensures forall g :: g in CanonFields(fs) ==>
      exists i :: 0 <= i < |fs| && fs[i].key != PROTO && g == Field(fs[i].key, Canon(fs[i].value))
    decreases |fs|
  {
    if fs != [] {
      CanonFieldsShape(fs[1..]);
      var rest := CanonFields(fs[1..]);
      forall g | g in rest
        ensures exists i :: 1 <= i < |fs| && fs[i].key != PROTO && g == Field(fs[i].key, Canon(fs[i].value))
      {
        var i :| 0 <= i < |fs[1..]| && fs[1..][i].key != PROTO && g == Field(fs[1..][i].key, Canon(fs[1..][i].value));
        assert fs[i + 1] == fs[1..][i];
      }
      forall i | 1 <= i < |fs| && fs[i].key != PROTO ensures Field(fs[i].key, Canon(fs[i].value)) in rest {
        assert fs[1..][i - 1] == fs[i];
      }
      if fs[0].key != PROTO {
        var f := Field(fs[0].key, Canon(fs[0].value));
        InsertKeys(f, rest);
        forall i | 0 <= i < |rest| ensures rest[i].key != f.key {
          assert rest[i] in rest;
        }
        InsertInOrder(f, rest);
      }
    }
  }

  lemma InKeyOrderIsDistinct(fs: seq<Field>)
    requires InKeyOrder(fs)
    ensures DistinctKeys(fs)
  {
    forall i, j | 0 <= i < j < |fs| ensures fs[i].key != fs[j].key {
      LessIsStrict(fs[i].key, fs[j].key);
    }
  }

  lemma {:induction false} CanonIsCanonical(v: Json)
    requires Proper(v)
    ensures Canonical(Canon(v))
    decreases v
  {
    match v
    case JArr(items) =>
      forall i | 0 <= i < |items| ensures Canonical(Canon(items[i])) { CanonIsCanonical(items[i]); }
    case JObj(fs) =>
      CanonFieldsShape(fs);
      var gs := CanonFields(fs);
      forall k | 0 <= k < |gs| ensures gs[k].key != PROTO && Canonical(gs[k].value) {
        assert gs[k] in gs;
        var i :| 0 <= i < |fs| && fs[i].key != PROTO && gs[k] == Field(fs[i].key, Canon(fs[i].value));
        CanonIsCanonical(fs[i].value);
      }
    case _ =>
  }

  lemma {:induction false} CanonicalIsProper(v: Json)
    requires Canonical(v)
    ensures Proper(v) && NoProto(v)
    decreases v
  {
    match v
    case JArr(items) =>
      forall i | 0 <= i < |items| ensures Proper(items[i]) && NoProto(items[i]) { CanonicalIsProper(items[i]); }
    case JObj(fs) =>
      InKeyOrderIsDistinct(fs);
      forall i | 0 <= i < |fs| ensures Proper(fs[i].value) && NoProto(fs[i].value) { CanonicalIsProper(fs[i].value); }
    case _ =>
  }

  // -------------------------------------- Same is symmetric and transitive

  lemma KeyAt(fs: seq<Field>, k: string)
    ensures k in Keys(fs) <==> exists i :: 0 <= i < |fs| && fs[i].key == k
  {
  }

  lemma {:induction false} SameIsSymmetric(a: Json, b: Json)
    requires Same(a, b)
    ensures Same(b, a)
    decreases a
  {
    match a
    case JArr(xs) => forall i | 0 <= i < |xs| ensures Same(b.items[i], xs[i]) { SameIsSymmetric(xs[i], b.items[i]); }
    case JObj(fs) =>
      forall i, j | 0 <= i < |fs| && 0 <= j < |b.fields| && fs[i].key == b.fields[j].key
        ensures Same(b.fields[j].value, fs[i].value)
      {
        SameIsSymmetric(fs[i].value, b.fields[j].value);
      }
    case _ =>
  }

  lemma {:induction false} SameIsTransitive(a: Json, b: Json, c: Json)
    requires Same(a, b) && Same(b, c)
    ensures Same(a, c)
    decreases a
  {
    match a
    case JArr(xs) =>
      forall i | 0 <= i < |xs| ensures Same(xs[i], c.items[i]) { SameIsTransitive(xs[i], b.items[i], c.items[i]); }
    case JObj(fs) =>
      forall i, k | 0 <= i < |fs| && 0 <= k < |c.fields| && fs[i].key == c.fields[k].key
        ensures Same(fs[i].value, c.fields[k].value)
      {
        assert fs[i].key in Keys(fs);
        KeyAt(b.fields, fs[i].key);
        var j :| 0 <= j < |b.fields| && b.fields[j].key == fs[i].key;
        SameIsTransitive(fs[i].value, b.fields[j].value, c.fields[k].value);
      }
    case _ =>
  }

  // ------------------------------------------------------------- the main result

  lemma {:induction false} CanonIsSame(v: Json)
    requires Proper(v) && NoProto(v)
    ensures Same(v, Canon(v))
    decreases v
  {
    match v
    case JArr(items) => forall i | 0 <= i < |items| ensures Same(items[i], Canon(items[i])) { CanonIsSame(items[i]); }
    case JObj(fs) =>
      CanonFieldsShape(fs);
      var gs := CanonFields(fs);
      forall k ensures k in Keys(fs) <==> k in Keys(gs) {
        KeyAt(fs, k);
        KeyAt(gs, k);
        if i :| 0 <= i < |fs| && fs[i].key == k {
          assert Field(fs[i].key, Canon(fs[i].value)) in gs;
        }
        if j :| 0 <= j < |gs| && gs[j].key == k {
          assert gs[j] in gs;
        }
      }
      forall i, j | 0 <= i < |fs| && 0 <= j < |gs| && fs[i].key == gs[j].key ensures Same(fs[i].value, gs[j].value) {
        assert gs[j] in gs;
        var m :| 0 <= m < |fs| && fs[m].key != PROTO && gs[j] == Field(fs[m].key, Canon(fs[m].value));
        assert m == i;
        CanonIsSame(fs[i].value);
      }
    case _ =>
  }

  /** Two lists in key order with the same keys have the same keys position by position. */
  lemma {:induction false} SameKeysInOrder(fs: seq<Field>, gs: seq<Field>)
    requires InKeyOrder(fs) && InKeyOrder(gs) && Keys(fs) == Keys(gs)
    ensures |fs| == |gs| && forall i :: 0 <= i < |fs| ==> fs[i].key == gs[i].key
    decreases |fs|
  {
    InKeyOrderIsDistinct(fs);
    InKeyOrderIsDistinct(gs);
    NoKeys(fs);
    NoKeys(gs);
    if fs != [] {
      assert fs[0].key in Keys(gs) && gs[0].key in Keys(fs);
      KeyAt(gs, fs[0].key);
      KeyAt(fs, gs[0].key);
      LessIsStrict(fs[0].key, gs[0].key);
      assert fs[0].key == gs[0].key;
      TailKeys(fs);
      TailKeys(gs);
      SameKeysInOrder(fs[1..], gs[1..]);
    }
  }

  lemma NoKeys(fs: seq<Field>)
    ensures Keys(fs) == {} <==> fs == []
  {
    if fs != [] {
      assert fs[0].key in Keys(fs);
    }
  }

  lemma TailKeys(fs: seq<Field>)
    requires fs != [] && DistinctKeys(fs)
    ensures Keys(fs[1..]) == Keys(fs) - {fs[0].key}
  {
    forall k ensures k in Keys(fs[1..]) <==> k in Keys(fs) && k != fs[0].key {
      KeyAt(fs, k);
      KeyAt(fs[1..], k);
      if i :| 0 <= i < |fs| && fs[i].key == k && k != fs[0].key {
        assert fs[1..][i - 1].key == k;
      }
      if i :| 0 <= i < |fs[1..]| && fs[1..][i].key == k {
        assert fs[i + 1].key == k;
      }
    }
  }

  lemma {:induction false} CanonicalSameIsEqual(a: Json, b: Json)
    requires Canonical(a) && Canonical(b) && Same(a, b)
    ensures a == b
    decreases a
  {
    match a
    case JArr(xs) =>
      forall i | 0 <= i < |xs| ensures xs[i] == b.items[i] { CanonicalSameIsEqual(xs[i], b.items[i]); }
      assert xs == b.items;
    case JObj(fs) =>
      SameKeysInOrder(fs, b.fields);
      forall i | 0 <= i < |fs| ensures fs[i] == b.fields[i] { CanonicalSameIsEqual(fs[i].value, b.fields[i].value); }
      assert fs == b.fields;
    case _ =>
  }

  /** Without `__proto__` fields, canonical forms are equal exactly up to key order. */
  lemma {:induction false} CanonEqualIffSame(a: Json, b: Json)
    requires Proper(a) && Proper(b) && NoProto(a) && NoProto(b)
    ensures Canon(a) == Canon(b) <==> Same(a, b)
  {
    CanonIsSame(a);
    CanonIsSame(b);
    CanonIsCanonical(a);
    CanonIsCanonical(b);
    SameIsSymmetric(b, Canon(b));
    SameIsSymmetric(a, Canon(a));
    if Canon(a) == Canon(b) {
      SameIsTransitive(a, Canon(a), b);
    }
    if Same(a, b) {
      SameIsTransitive(Canon(a), a, b);
      SameIsTransitive(Canon(a), b, Canon(b));
      CanonicalSameIsEqual(Canon(a), Canon(b));
    }
  }

  lemma {:induction false} CanonIsIdempotent(v: Json)
    requires Proper(v)
    ensures Canon(Canon(v)) == Canon(v)
  {
    CanonIsCanonical(v);
    CanonicalIsProper(Canon(v));
    CanonIsSame(Canon(v));
    CanonIsCanonical(Canon(v));
    CanonicalSameIsEqual(Canon(v), Canon(Canon(v)));
  }

  // ------------------------------------------------------------- `__proto__` keys

  lemma {:induction false} StripFieldsShape(fs: seq<Field>)
    requires DistinctKeys(fs)
    ensures DistinctKeys(StripFields(fs))
    decreases |fs|
  {
    if fs != [] {
      StripFieldsShape(fs[1..]);
      var rest := StripFields(fs[1..]);
      forall j | 0 <= j < |rest| ensures rest[j].key != fs[0].key {
        StrippedFrom(fs[1..], rest[j]);
      }
    }
  }

  lemma {:induction false} StrippedFrom(fs: seq<Field>, g: Field)
    requires g in StripFields(fs)
    ensures exists i :: 0 <= i < |fs| && fs[i].key != PROTO && g == Field(fs[i].key, Strip(fs[i].value))
    decreases |fs|
  {
    if g != Field(fs[0].key, Strip(fs[0].value)) || fs[0].key == PROTO {
      StrippedFrom(fs[1..], g);
      var i :| 0 <= i < |fs[1..]| && fs[1..][i].key != PROTO && g == Field(fs[1..][i].key, Strip(fs[1..][i].value));
      assert fs[i + 1] == fs[1..][i];
    }
  }

  lemma {:induction false} StripIsProper(v: Json)
    requires Proper(v)
    ensures Proper(Strip(v)) && NoProto(Strip(v))
    decreases v
  {
    match v
    case JArr(items) =>
      forall i | 0 <= i < |items| ensures Proper(Strip(items[i])) && NoProto(Strip(items[i])) { StripIsProper(items[i]); }
    case JObj(fs) =>
      StripFieldsShape(fs);
      var gs := StripFields(fs);
      forall k | 0 <= k < |gs| ensures gs[k].key != PROTO && Proper(gs[k].value) && NoProto(gs[k].value) {
        StrippedFrom(fs, gs[k]);
        var i :| 0 <= i < |fs| && fs[i].key != PROTO && gs[k] == Field(fs[i].key, Strip(fs[i].value));
        StripIsProper(fs[i].value);
      }
    case _ =>
  }

  lemma {:induction false} CanonIgnoresProto(v: Json)
    ensures Canon(Strip(v)) == Canon(v)
    decreases v, 0
  {
    match v
    case JArr(items) =>
      forall i | 0 <= i < |items| ensures Canon(Strip(items[i])) == Canon(items[i]) { CanonIgnoresProto(items[i]); }
      assert CanonAll(Strip(v).items) == CanonAll(items);
    case JObj(fs) => CanonFieldsIgnoreProto(fs);
    case _ =>
  }

  lemma {:induction false} CanonFieldsIgnoreProto(fs: seq<Field>)
    ensures CanonFields(StripFields(fs)) == CanonFields(fs)
    decreases fs, 1
  {
    if fs != [] {
      CanonIgnoresProto(fs[0].value);
      CanonFieldsIgnoreProto(fs[1..]);
      assert fs[0].key != PROTO ==> StripFields(fs)[1..] == StripFields(fs[1..]);
    }
  }

  /** For all values: canonical forms are equal exactly when the values are, up to key order and `__proto__` fields. */
  lemma {:induction false} CanonEqualIffSameStripped(a: Json, b: Json)
    requires Proper(a) && Proper(b)
    ensures Canon(a) == Canon(b) <==> Same(Strip(a), Strip(b))
  {
    CanonIgnoresProto(a);
    CanonIgnoresProto(b);
    StripIsProper(a);
    StripIsProper(b);
    CanonEqualIffSame(Strip(a), Strip(b));
  }

  lemma {:induction false} SameKeepsNoProto(a: Json, b: Json)
    requires Same(a, b) && NoProto(b)
    ensures NoProto(a)
    decreases a
  {
    match a
    case JArr(xs) => forall i | 0 <= i < |xs| ensures NoProto(xs[i]) { SameKeepsNoProto(xs[i], b.items[i]); }
    case JObj(fs) =>
      forall i | 0 <= i < |fs| ensures fs[i].key != PROTO && NoProto(fs[i].value) {
        assert fs[i].key in Keys(fs);
        KeyAt(b.fields, fs[i].key);
        var j :| 0 <= j < |b.fields| && b.fields[j].key == fs[i].key;
        SameKeepsNoProto(fs[i].value, b.fields[j].value);
      }
    case _ =>
  }

  /** The documented promise holds of a value exactly when it has no `__proto__` field. */
  lemma {:induction false} CanonFaithfulIffNoProto(v: Json)
    requires Proper(v)
    ensures (forall w :: Proper(w) && NoProto(w) ==> (Canon(v) == Canon(w) <==> Same(v, w))) <==> NoProto(v)
  {
    if NoProto(v) {
      forall w | Proper(w) && NoProto(w) ensures Canon(v) == Canon(w) <==> Same(v, w) {
        CanonEqualIffSame(v, w);
      }
    } else {
      StripIsProper(v);
      CanonIgnoresProto(v);
      if Same(v, Strip(v)) {
        SameKeepsNoProto(v, Strip(v));
      }
    }
  }

  // ------------------------------------------------------------------- hashing

  /** `sha256Json`: a digest of the canonical form. */
  function Hash(digest: Json -> string, v: Json): string {
    digest(Canon(v))
  }

  ghost predicate Injective(digest: Json -> string) {
    forall x, y :: digest(x) == digest(y) ==> x == y
  }

  /** Records with the same field names and the same canonical form agree field by field. */
  lemma RecordsAgree(fs: seq<Field>, gs: seq<Field>)
    requires |fs| == |gs| && DistinctKeys(fs)
    requires forall i :: 0 <= i < |fs| ==> fs[i].key == gs[i].key && fs[i].key != PROTO
    requires Canon(JObj(fs)) == Canon(JObj(gs))
    ensures forall i :: 0 <= i < |fs| ==> Canon(fs[i].value) == Canon(gs[i].value)
  {
    assert DistinctKeys(gs);
    CanonFieldsShape(fs);
    CanonFieldsShape(gs);
    forall i | 0 <= i < |fs| ensures Canon(fs[i].value) == Canon(gs[i].value) {
      var f := Field(fs[i].key, Canon(fs[i].value));
      assert f in CanonFields(gs);
    }
  }

  /** Records with the same field names and the same hash agree field by field. */
  lemma HashedRecordsAgree(digest: Json -> string, fs: seq<Field>, gs: seq<Field>)
    requires Injective(digest) && Hash(digest, JObj(fs)) == Hash(digest, JObj(gs))
    requires |fs| == |gs| && DistinctKeys(fs)
    requires forall i :: 0 <= i < |fs| ==> fs[i].key == gs[i].key && fs[i].key != PROTO
    ensures forall i :: 0 <= i < |fs| ==> Canon(fs[i].value) == Canon(gs[i].value)
  {
    RecordsAgree(fs, gs);
  }

  // --------------------------------------------------------- the loop of the code

  /** The keys of an object, sorted. */
  method SortedFields(fs: seq<Field>) returns (r: seq<Field>)
    requires DistinctKeys(fs)
    ensures InKeyOrder(r) && |r| == |fs|
    ensures forall f :: f in r <==> f in fs
  {
    r := [];
    var n := 0;
    while n < |fs|
      invariant 0 <= n <= |fs| && |r| == n && InKeyOrder(r)
      invariant forall f :: f in r <==> f in fs[..n]
    {
      forall i | 0 <= i < |r| ensures r[i].key != fs[n].key {
        assert r[i] in r;
      }
      InsertInOrder(fs[n], r);
      InsertKeys(fs[n], r);
      r := Insert(fs[n], r);
      assert fs[..n + 1] == fs[..n] + [fs[n]];
      n := n + 1;
    }
    assert fs[..n] == fs;
  }

  /** Rebuild a value, filling each object field by field in sorted key order. */
  method Canonicalize(v: Json) returns (r: Json)
    requires Proper(v)
    ensures r == Canon(v)
    decreases v
  {
    match v {
      case JArr(items) =>
        var out: seq<Json> := [];
        var n := 0;
        while n < |items|
          invariant 0 <= n <= |items| && |out| == n
          invariant forall i :: 0 <= i < n ==> out[i] == Canon(items[i])
        {
          var item := Canonicalize(items[n]);
          out := out + [item];
          n := n + 1;
        }
        assert out == CanonAll(items);
        r := JArr(out);
      case JObj(fields) =>
        var sorted := SortedFields(fields);
        var out: seq<Field> := [];
        var n := 0;
        while n < |sorted|
          invariant 0 <= n <= |sorted| && InKeyOrder(out)
          invariant forall i :: 0 <= i < n && sorted[i].key != PROTO ==> Field(sorted[i].key, Canon(sorted[i].value)) in out
          invariant forall g :: g in out ==> exists i :: 0 <= i < n && sorted[i].key != PROTO && g == Field(sorted[i].key, Canon(sorted[i].value))
        {
          assert sorted[n] in fields;
          var value := Canonicalize(sorted[n].value);
          if sorted[n].key != PROTO {
            forall i | 0 <= i < |out| ensures Less(out[i].key, sorted[n].key) {
              assert out[i] in out;
            }
            out := out + [Field(sorted[n].key, value)];
          }
          n := n + 1;
        }
        FilledInOrder(fields, sorted, out);
        r := JObj(out);
      case _ => r := v;
    }
  }

  lemma {:induction false} FilledInOrder(fs: seq<Field>, sorted: seq<Field>, out: seq<Field>)
    requires DistinctKeys(fs) && InKeyOrder(out)
    requires forall f :: f in sorted <==> f in fs
    requires forall i :: 0 <= i < |sorted| && sorted[i].key != PROTO ==> Field(sorted[i].key, Canon(sorted[i].value)) in out
    requires forall g :: g in out ==> exists i :: 0 <= i < |sorted| && sorted[i].key != PROTO && g == Field(sorted[i].key, Canon(sorted[i].value))
    ensures out == CanonFields(fs)
  {
    var gs := CanonFields(fs);
    CanonFieldsShape(fs);
    forall g ensures g in out <==> g in gs {
      if g in out {
        var i :| 0 <= i < |sorted| && sorted[i].key != PROTO && g == Field(sorted[i].key, Canon(sorted[i].value));
        assert sorted[i] in fs;
      }
      if g in gs {
        var i :| 0 <= i < |fs| && fs[i].key != PROTO && g == Field(fs[i].key, Canon(fs[i].value));
        assert fs[i] in sorted;
      }
    }
    SameFieldsInOrder(out, gs);
  }

  lemma SameFieldsInOrder(out: seq<Field>, gs: seq<Field>)
    requires InKeyOrder(out) && InKeyOrder(gs)
    requires forall g :: g in out <==> g in gs
    ensures out == gs
  {
    forall k ensures k in Keys(out) <==> k in Keys(gs) {
      KeyAt(out, k);
      KeyAt(gs, k);
      if i :| 0 <= i < |out| && out[i].key == k { assert out[i] in gs; }
      if j :| 0 <= j < |gs| && gs[j].key == k { assert gs[j] in out; }
    }
    SameKeysInOrder(out, gs);
    InKeyOrderIsDistinct(gs);
    forall i | 0 <= i < |out| ensures out[i] == gs[i] {
      assert out[i] in gs;
    }
  }
}
