/**
 * A digest that meets what the theorems ask of digests: it spells the whole value out, so
 * no two values share it, and it starts with a digit, so it is no starting hash of a log.
 */
module SpelledJson {
  import opened JsonCanonical

  /** A string with its length in front, in unary. */
  function Framed(s: string): string {
    seq(|s|, _ => '0') + "1" + s
  }

  lemma FrameEnds(a: string, x: string, b: string, y: string)
    requires Framed(a) + x == Framed(b) + y
    ensures a == b && x == y
  {
    var s, t := Framed(a) + x, Framed(b) + y;
    assert s[|a|] == '1' && t[|b|] == '1';
    assert forall i :: 0 <= i < |a| ==> s[i] == '0';
    assert forall i :: 0 <= i < |b| ==> t[i] == '0';
    assert |a| == |b|;
    assert s[|a| + 1..2 * |a| + 1] == a && t[|b| + 1..2 * |b| + 1] == b;
    assert s[2 * |a| + 1..] == x && t[2 * |b| + 1..] == y;
  }

  function Spell(v: Json): string
    decreases v, 0
  {
    match v
    case JNull => "0"
    case JBool(b) => if b then "2" else "1"
    case JNum(text) => "3" + Framed(text)
    case JStr(s) => "4" + Framed(s)
    case JArr(items) => "5" + SpellAll(items)
    case JObj(fs) => "6" + SpellFields(fs)
  }

  function SpellAll(items: seq<Json>): string
    decreases items, 1
  {
    if items == [] then "0" else "1" + (Spell(items[0]) + SpellAll(items[1..]))
  }

  function SpellFields(fs: seq<Field>): string
    decreases fs, 1
  {
    if fs == [] then "0" else "1" + (Framed(fs[0].key) + (Spell(fs[0].value) + SpellFields(fs[1..])))
  }

  /** A first character can be taken off both sides. */
  lemma SameKind(s: string, x: string, t: string, y: string)
    requires s != "" && t != "" && s + x == t + y
    ensures s[0] == t[0] && s[1..] + x == t[1..] + y
  {
    assert (s + x)[0] == s[0] && (t + y)[0] == t[0];
    assert (s + x)[1..] == s[1..] + x && (t + y)[1..] == t[1..] + y;
  }

  lemma OnlyKind(s: string, x: string, t: string, y: string)
    requires |s| == |t| == 1 && s + x == t + y
    ensures x == y
  {
    SameKind(s, x, t, y);
    assert s[1..] + x == x && t[1..] + y == y;
  }

  lemma Regroup(s: string, t: string, x: string)
    ensures (s + t) + x == s + (t + x)
  {
  }

  /** A spelled value shows where it ends. */
  lemma {:induction false} SpellEnds(a: Json, x: string, b: Json, y: string)
    requires Spell(a) + x == Spell(b) + y
    ensures a == b && x == y
    decreases a, 0
  {
    SameKind(Spell(a), x, Spell(b), y);
    assert KindOf(a) == KindOf(b);
    match a
    case JNum(m) => FrameEnds(m, x, b.text, y);
    case JStr(m) => FrameEnds(m, x, b.s, y);
    case JArr(items) => SpellAllEnds(items, x, b.items, y);
    case JObj(fs) => SpellFieldsEnd(fs, x, b.fields, y);
    case _ => OnlyKind(Spell(a), x, Spell(b), y);
  }

  function KindOf(v: Json): (k: char)
    ensures Spell(v) != "" && k == Spell(v)[0]
  {
    match v
    case JNull => '0'
    case JBool(b) => if b then '2' else '1'
    case JNum(_) => '3'
    case JStr(_) => '4'
    case JArr(_) => '5'
    case JObj(_) => '6'
  }

  lemma {:induction false} SpellAllEnds(a: seq<Json>, x: string, b: seq<Json>, y: string)
    requires SpellAll(a) + x == SpellAll(b) + y
    ensures a == b && x == y
    decreases a, 1
  {
    SameKind(SpellAll(a), x, SpellAll(b), y);
    if a == [] {
      OnlyKind(SpellAll(a), x, SpellAll(b), y);
    } else {
      assert b != [];
      Regroup(Spell(a[0]), SpellAll(a[1..]), x);
      Regroup(Spell(b[0]), SpellAll(b[1..]), y);
      SpellEnds(a[0], SpellAll(a[1..]) + x, b[0], SpellAll(b[1..]) + y);
      SpellAllEnds(a[1..], x, b[1..], y);
      assert a == [a[0]] + a[1..] && b == [b[0]] + b[1..];
    }
  }

  lemma {:induction false} SpellFieldsEnd(a: seq<Field>, x: string, b: seq<Field>, y: string)
    requires SpellFields(a) + x == SpellFields(b) + y
    ensures a == b && x == y
    decreases a, 1
  {
    SameKind(SpellFields(a), x, SpellFields(b), y);
    if a == [] {
      OnlyKind(SpellFields(a), x, SpellFields(b), y);
    } else {
      assert b != [];
      SpellFieldEnds(a[0], SpellFields(a[1..]), x, b[0], SpellFields(b[1..]), y);
      SpellEnds(a[0].value, SpellFields(a[1..]) + x, b[0].value, SpellFields(b[1..]) + y);
      SpellFieldsEnd(a[1..], x, b[1..], y);
      assert a == [a[0]] + a[1..] && b == [b[0]] + b[1..];
    }
  }

  /** The key of a spelled field ends before its value. */
  lemma SpellFieldEnds(f: Field, s: string, x: string, g: Field, t: string, y: string)
    requires (Framed(f.key) + (Spell(f.value) + s)) + x == (Framed(g.key) + (Spell(g.value) + t)) + y
    ensures f.key == g.key && Spell(f.value) + (s + x) == Spell(g.value) + (t + y)
  {
    Regroup(Framed(f.key), Spell(f.value) + s, x);
    Regroup(Framed(g.key), Spell(g.value) + t, y);
    FrameEnds(f.key, (Spell(f.value) + s) + x, g.key, (Spell(g.value) + t) + y);
    Regroup(Spell(f.value), s, x);
    Regroup(Spell(g.value), t, y);
  }

  /** A spelled object is longer than each of its texts. */
  lemma {:induction false} TextIsShorter(fs: seq<Field>, f: Field)
    requires f in fs && f.value.JStr?
    ensures |SpellFields(fs)| > |f.value.s|
    decreases |fs|
  {
    if f != fs[0] {
      TextIsShorter(fs[1..], f);
    }
  }

  /** Injective digests exist, and one of them never starts with a letter. */
  lemma SpellIsInjective()
    ensures Injective(Spell)
    ensures forall v :: Spell(v) != "" && '0' <= Spell(v)[0] <= '6'
  {
    forall a, b | Spell(a) == Spell(b) ensures a == b {
      assert Spell(a) + "" == Spell(b) + "";
      SpellEnds(a, "", b, "");
    }
  }
}
