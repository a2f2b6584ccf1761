/**
 * The in-request trajectory buffer: a hash chain whose pre-image is five strings joined by
 * '|'. One of them, the action's JSON text, may itself contain '|'.
 */
module TrajectoryBuffers {
  import opened Wrappers
  import opened DecimalStrings
  import opened JsonCanonical

  const BAR := '|'

  const GENESIS := "0x" + Zeros(64)

  datatype Event = Event(
    traceId: string, sequence: nat, agentId: string, eventType: string, action: seq<Field>,
    inputRef: Option<string>, outputRef: Option<string>, trustContext: Option<Json>,
    previousEventHash: string, eventHash: string)

  /** The JSON printer and the hexadecimal digest with its "0x" prefix. */
  datatype Codec = Codec(dumps: seq<Field> -> string, digest: string -> string)

  predicate NoBar(s: string) { BAR !in s }

  /** No digest contains the separator, and different pre-images have different digests. */
  ghost predicate Collisionless(c: Codec) {
    && (forall s :: NoBar(c.digest(s)))
    && (forall s, t :: c.digest(s) == c.digest(t) ==> s == t)
  }

  function PreImage(traceId: string, sequence: nat, eventType: string, json: string, previous: string): string {
    traceId + [BAR] + (Digits(sequence) + [BAR] + (eventType + [BAR] + (json + [BAR] + previous)))
  }

  function EventHash(c: Codec, e: Event, i: nat, previous: string): string {
    c.digest(PreImage(e.traceId, i, e.eventType, c.dumps(e.action), previous))
  }

  function LastHash(events: seq<Event>): string {
    if events == [] then GENESIS else events[|events| - 1].eventHash
  }

  predicate LinkAt(c: Codec, events: seq<Event>, i: nat)
    requires i < |events|
  {
    var e, previous := events[i], LastHash(events[..i]);
    e.previousEventHash == previous && e.eventHash == EventHash(c, e, i, previous)
  }

  predicate Verified(c: Codec, events: seq<Event>) {
    forall i :: 0 <= i < |events| ==> LinkAt(c, events, i)
  }

  class TrajectoryBuffer {
    const c: Codec
    const traceId: string
    const agentId: string
    var events: seq<Event>

    constructor (c: Codec, traceId: string, agentId: string)
      ensures this.c == c && this.traceId == traceId && this.agentId == agentId && events == []
      ensures Verified(c, events)
    {
      this.c, this.traceId, this.agentId, events := c, traceId, agentId, [];
    }

    /** A missing action is stored as the empty object. */
    method Append(eventType: string, action: Option<seq<Field>>, inputRef: Option<string>,
                  outputRef: Option<string>, trustContext: Option<Json>)
      returns (e: Event)
      requires Verified(c, events)
      modifies this
      ensures events == old(events) + [e] && Verified(c, events)
      ensures e.traceId == traceId && e.agentId == agentId && e.sequence == |old(events)| && e.eventType == eventType
      ensures e.action == (if action.Some? then action.value else []) && e.trustContext == trustContext
      ensures e.inputRef == inputRef && e.outputRef == outputRef
      ensures e.previousEventHash == LastHash(old(events)) && e.eventHash == EventHash(c, e, e.sequence, e.previousEventHash)
    {
      var sequence := |events|;
      var prev := LastHash(events);
      var stored := if action.Some? then action.value else [];
      var eventHash := c.digest(PreImage(traceId, sequence, eventType, c.dumps(stored), prev));
      e := Event(traceId, sequence, agentId, eventType, stored, inputRef, outputRef, trustContext, prev, eventHash);
      VerifiedExtends(c, events, e);
      events := events + [e];
    }

    method VerifyChain() returns (ok: bool)
      ensures ok == Verified(c, events)
    {
      var prev := GENESIS;
      var i := 0;
      while i < |events|
        invariant 0 <= i <= |events| && prev == LastHash(events[..i])
        invariant forall j :: 0 <= j < i ==> LinkAt(c, events, j)
      {
        var e := events[i];
        assert LinkAt(c, events, i) <==> e.previousEventHash == prev && e.eventHash == EventHash(c, e, i, prev);
        if e.previousEventHash != prev { return false; }
        var expected := c.digest(PreImage(e.traceId, i, e.eventType, c.dumps(e.action), prev));
        if e.eventHash != expected { return false; }
        prev := e.eventHash;
        i := i + 1;
        assert events[..i][i - 1] == e;
      }
      return true;
    }
  }

  lemma VerifiedExtends(c: Codec, events: seq<Event>, e: Event)
    requires Verified(c, events)
    requires e.previousEventHash == LastHash(events) && e.eventHash == EventHash(c, e, |events|, e.previousEventHash)
    ensures Verified(c, events + [e])
  {
    var all := events + [e];
    forall i | 0 <= i < |all| ensures LinkAt(c, all, i) {
      assert all[..i] == events[..i];
      if i < |events| {
        assert LinkAt(c, events, i);
      } else {
        assert events[..i] == events;
      }
    }
  }

  // ------------------------------------------------ the joined form is unambiguous

  /** Around the separator of `a + "|" + x`: none before it if `a` has none, none after it if `x` has none. */
  lemma BarsOfJoin(a: string, x: string, k: nat)
    requires k <= |a| + |x|
    ensures (a + [BAR] + x)[|a|] == BAR
    ensures NoBar(a) && k < |a| ==> (a + [BAR] + x)[k] != BAR
    ensures NoBar(x) && k > |a| ==> (a + [BAR] + x)[k] != BAR
  {
    if k > |a| {
      assert (a + [BAR] + x)[k] == x[k - |a| - 1];
    }
  }

  lemma SplitAt(a: string, x: string, b: string, y: string)
    requires |a| == |b| && a + [BAR] + x == b + [BAR] + y
    ensures a == b && x == y
  {
    var s, t := a + [BAR] + x, b + [BAR] + y;
    assert s[..|a|] == a && t[..|b|] == b && s[|a| + 1..] == x && t[|b| + 1..] == y;
  }

  /** The first separator splits a joined string. */
  lemma SplitFirst(a: string, x: string, b: string, y: string)
    requires NoBar(a) && NoBar(b) && a + [BAR] + x == b + [BAR] + y
    ensures a == b && x == y
  {
    assert |a + [BAR] + x| == |b + [BAR] + y|;
    BarsOfJoin(a, x, |b|);
    BarsOfJoin(b, y, |a|);
    SplitAt(a, x, b, y);
  }

  /** So does the last one. */
  lemma SplitLast(x: string, a: string, y: string, b: string)
    requires NoBar(a) && NoBar(b) && x + [BAR] + a == y + [BAR] + b
    ensures a == b && x == y
  {
    assert |x + [BAR] + a| == |y + [BAR] + b|;
    BarsOfJoin(x, a, |y|);
    BarsOfJoin(y, b, |x|);
    SplitAt(x, a, y, b);
  }

  lemma {:induction false} DigitsHaveNoBar(n: nat)
    ensures NoBar(Digits(n))
  {
    DigitsIsPlain(n);
  }

  /** The joined string determines all five parts, whatever the JSON text contains. */
  lemma PreImageIsUnambiguous(t1: string, n1: nat, e1: string, j1: string, p1: string,
                              t2: string, n2: nat, e2: string, j2: string, p2: string)
    requires NoBar(t1) && NoBar(e1) && NoBar(p1) && NoBar(t2) && NoBar(e2) && NoBar(p2)
    requires PreImage(t1, n1, e1, j1, p1) == PreImage(t2, n2, e2, j2, p2)
    ensures t1 == t2 && n1 == n2 && e1 == e2 && j1 == j2 && p1 == p2
  {
    DigitsHaveNoBar(n1);
    DigitsHaveNoBar(n2);
    SplitFirst(t1, Digits(n1) + [BAR] + (e1 + [BAR] + (j1 + [BAR] + p1)), t2, Digits(n2) + [BAR] + (e2 + [BAR] + (j2 + [BAR] + p2)));
    SplitFirst(Digits(n1), e1 + [BAR] + (j1 + [BAR] + p1), Digits(n2), e2 + [BAR] + (j2 + [BAR] + p2));
    SplitFirst(e1, j1 + [BAR] + p1, e2, j2 + [BAR] + p2);
    SplitLast(j1, p1, j2, p2);
    DigitsIsPlain(n1);
    DigitsIsPlain(n2);
  }

  /** The hypothesis is needed: for every trace id and event, an id with a separator joins to the same string as another event. */
  lemma BarInTraceIdIsAmbiguous(traceId: string, eventType: string, json: string, previous: string)
    ensures PreImage(traceId + "|0", 0, eventType, json, previous)
         == PreImage(traceId, 0, "0", eventType + [BAR] + json, previous)
    ensures traceId + "|0" != traceId
  {
    assert Digits(0) == "0";
    var tail := eventType + [BAR] + (json + [BAR] + previous);
    assert eventType + [BAR] + json + [BAR] + previous == tail;
    assert traceId + "|0" + [BAR] + ("0" + [BAR] + tail) == traceId + [BAR] + ("0" + [BAR] + ("0" + [BAR] + tail));
    assert |traceId + "|0"| > |traceId|;
  }

  // ------------------------------------------------------------- tamper evidence

  predicate PlainEvent(e: Event) { NoBar(e.traceId) && NoBar(e.eventType) }

  predicate SameHashedFields(c: Codec, e: Event, f: Event) {
    && e.traceId == f.traceId && e.eventType == f.eventType && c.dumps(e.action) == c.dumps(f.action)
    && e.previousEventHash == f.previousEventHash && e.eventHash == f.eventHash
  }

  lemma LastHashHasNoBar(c: Codec, events: seq<Event>)
    requires Collisionless(c) && Verified(c, events)
    ensures NoBar(LastHash(events))
  {
    if events != [] {
      assert LinkAt(c, events, |events| - 1);
    }
  }

  lemma VerifiedPrefix(c: Codec, events: seq<Event>, n: nat)
    requires Verified(c, events) && n <= |events|
    ensures Verified(c, events[..n])
  {
    forall i | 0 <= i < n ensures LinkAt(c, events[..n], i) {
      assert LinkAt(c, events, i) && events[..n][..i] == events[..i];
    }
  }

  lemma LastEventsAgree(c: Codec, a: seq<Event>, b: seq<Event>)
    requires Collisionless(c) && Verified(c, a) && Verified(c, b) && a != [] && b != []
    requires PlainEvent(a[|a| - 1]) && PlainEvent(b[|b| - 1])
    requires LastHash(a) == LastHash(b)
    ensures |a| == |b| && SameHashedFields(c, a[|a| - 1], b[|b| - 1])
    ensures LastHash(a[..|a| - 1]) == LastHash(b[..|b| - 1])
  {
    var m, n := |a| - 1, |b| - 1;
    var e, f := a[m], b[n];
    assert LinkAt(c, a, m) && LinkAt(c, b, n);
    VerifiedPrefix(c, a, m);
    VerifiedPrefix(c, b, n);
    LastHashHasNoBar(c, a[..m]);
    LastHashHasNoBar(c, b[..n]);
    PreImageIsUnambiguous(e.traceId, m, e.eventType, c.dumps(e.action), LastHash(a[..m]),
                          f.traceId, n, f.eventType, c.dumps(f.action), LastHash(b[..n]));
  }

  /** No digest is the hash an empty buffer starts from. */
  ghost predicate NeverGenesis(c: Codec) {
    forall s :: c.digest(s) != GENESIS
  }

  /** A text without the separator: each character in unary. */
  function Unary(s: string): string {
    if s == "" then "" else seq(s[0] as int, _ => '0') + ("1" + Unary(s[1..]))
  }

  lemma {:induction false} UnaryHasNoBar(s: string)
    ensures NoBar(Unary(s))
    decreases |s|
  {
    if s != "" {
      UnaryHasNoBar(s[1..]);
    }
  }

  lemma {:induction false} UnaryIsInjective(s: string, t: string)
    requires Unary(s) == Unary(t)
    ensures s == t
    decreases |s|
  {
    if s != "" && t != "" {
      var u, m, n := Unary(s), s[0] as int, t[0] as int;
      assert u[m] == '1' && u[n] == '1';
      assert forall i :: 0 <= i < m ==> u[i] == '0';
      assert forall i :: 0 <= i < n ==> u[i] == '0';
      assert u[m + 1..] == Unary(s[1..]) && u[n + 1..] == Unary(t[1..]);
      UnaryIsInjective(s[1..], t[1..]);
      assert s == [s[0]] + s[1..] && t == [t[0]] + t[1..];
    }
  }

  /** Some digest has no collision, no separator and never the starting hash. */
  lemma DigestHypothesesAreConsistent(dumps: seq<Field> -> string)
    ensures var c := Codec(dumps, s => "1" + Unary(s)); Collisionless(c) && NeverGenesis(c)
  {
    forall s ensures NoBar("1" + Unary(s)) {
      UnaryHasNoBar(s);
    }
    forall s, t | "1" + Unary(s) == "1" + Unary(t) ensures s == t {
      assert ("1" + Unary(s))[1..] == Unary(s) && ("1" + Unary(t))[1..] == Unary(t);
      UnaryIsInjective(s, t);
    }
    assert GENESIS[0] == '0';
  }

  /**
   * Two verified buffers with one last hash have one length and agree on every hashed field.
   * That digests avoid the starting hash is needed only to tell an empty buffer from another.
   */
  lemma {:induction false} SameLastHashSameBuffer(c: Codec, a: seq<Event>, b: seq<Event>)
    requires Collisionless(c) && Verified(c, a) && Verified(c, b)
    requires NeverGenesis(c) || (a == [] <==> b == [])
    requires forall e :: e in a || e in b ==> PlainEvent(e)
    requires LastHash(a) == LastHash(b)
    ensures |a| == |b| && forall i :: 0 <= i < |a| ==> SameHashedFields(c, a[i], b[i])
    decreases |a|
  {
    if a != [] { assert LinkAt(c, a, |a| - 1); }
    if b != [] { assert LinkAt(c, b, |b| - 1); }
    if a != [] && b != [] {
      var n := |a| - 1;
      LastEventsAgree(c, a, b);
      VerifiedPrefix(c, a, n);
      VerifiedPrefix(c, b, n);
      SameLastHashSameBuffer(c, a[..n], b[..n]);
      forall i | 0 <= i < |a| ensures SameHashedFields(c, a[i], b[i]) {
        if i < n {
          assert a[..n][i] == a[i] && b[..n][i] == b[i];
        }
      }
    }
  }
}
