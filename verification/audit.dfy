/**
 * The audit log: one append-only table in which every entity has its own hash chain, with
 * repeats of the same logical event recognised by a fingerprint stored in the payload.
 * Creation order is the order of the table. The two digests are parameters.
 */
module Audit {
  import opened Wrappers
  import opened JsonCanonical

  const GENESIS := "sha256:audit-genesis"
  const FINGERPRINT := "_fingerprint"
  const REFERENCES := "references"

  datatype Entity = Entity(companyId: string, entityType: string, entityId: string)

  /** The fields of a JSON object: keys are distinct. */
  type Payload = fs: seq<Field> | DistinctKeys(fs) witness []

  datatype AuditEvent = AuditEvent(entity: Entity, eventType: string, payload: Payload, previousEventHash: string, eventHash: string)

  datatype Input = Input(entity: Entity, eventType: string, payload: Payload, references: Json, eventKey: Option<string>)

  /** What an event hash is computed over. */
  datatype Hashed = Hashed(entity: Entity, eventType: string, payload: Payload, previousEventHash: string)

  /** The two uses of `sha256Json`. */
  datatype Hashes = Hashes(event: Hashed -> string, fingerprint: Input -> string)

  /** Only events with the same entity, type, payload up to key order and predecessor share a hash. */
  ghost predicate Faithful(h: Hashes) {
    forall x, y :: h.event(x) == h.event(y) ==>
      && x.entity == y.entity && x.eventType == y.eventType
      && Canon(JObj(x.payload)) == Canon(JObj(y.payload)) && x.previousEventHash == y.previousEventHash
  }

  // ------------------------------------------------------------- stored payloads

  /** Assign a field of an object literal: in place if the key is there, else at the end. */
  function SetField(fs: seq<Field>, key: string, value: Json): (r: seq<Field>)
    ensures DistinctKeys(fs) ==> DistinctKeys(r)
    ensures Field(key, value) in r
    ensures forall g :: g in r && g.key != key ==> g in fs
    ensures forall g :: g in fs && g.key != key ==> g in r
    ensures forall g :: g in r ==> g.key == key || g in fs
  {
    if fs == [] then [Field(key, value)]
    else if fs[0].key == key then
      assert forall g :: g in fs && g.key != key ==> g in fs[1..];
      [Field(key, value)] + fs[1..]
    else
      var rest := SetField(fs[1..], key, value);
      assert forall g :: g in fs <==> g == fs[0] || g in fs[1..];
      assert DistinctKeys(fs) ==> forall i :: 0 <= i < |rest| ==> rest[i].key != fs[0].key by {
        forall i | 0 <= i < |rest| && DistinctKeys(fs) ensures rest[i].key != fs[0].key {
          assert rest[i] in rest;
        }
      }
      [fs[0]] + rest
  }

  function StoredPayload(input: Input, fingerprint: string): Payload {
    SetField(SetField(input.payload, REFERENCES, input.references), FINGERPRINT, JStr(fingerprint))
  }

  /** The event is the one stored for that fingerprint. */
  predicate HasFingerprint(payload: Payload, fingerprint: string) {
    Field(FINGERPRINT, JStr(fingerprint)) in payload
  }

  /** The canonical payload determines the fingerprint in it. */
  lemma CanonKeepsFingerprint(p: Payload, q: Payload, f: string)
    requires Canon(JObj(p)) == Canon(JObj(q)) && HasFingerprint(p, f)
    ensures HasFingerprint(q, f)
  {
    CanonFieldsShape(p);
    CanonFieldsShape(q);
    var i :| 0 <= i < |p| && p[i] == Field(FINGERPRINT, JStr(f));
    assert |FINGERPRINT| == 12 && |PROTO| == 9;
    var g := Field(FINGERPRINT, Canon(JStr(f)));
    assert g in CanonFields(q);
    var j :| 0 <= j < |q| && q[j].key != PROTO && g == Field(q[j].key, Canon(q[j].value));
    StringIsItsOwnCanon(q[j].value, f);
  }

  lemma {:induction false} StringIsItsOwnCanon(v: Json, f: string)
    requires Canon(v) == JStr(f)
    ensures v == JStr(f)
  {
  }

  // ---------------------------------------------------------------------- append

  /** The rows of one entity, in creation order. */
  function Rows(events: seq<AuditEvent>, entity: Entity): seq<AuditEvent> {
    if events == [] then []
    else
      var n := |events| - 1;
      Rows(events[..n], entity) + (if events[n].entity == entity then [events[n]] else [])
  }

  function HashBefore(rows: seq<AuditEvent>, i: nat): string
    requires i <= |rows|
  {
    if i == 0 then GENESIS else rows[i - 1].eventHash
  }

  predicate IsRepeat(e: AuditEvent, eventType: string, fingerprint: string) {
    e.eventType == eventType && HasFingerprint(e.payload, fingerprint)
  }

  /** The first row that repeats the input, if there is one. */
  function FindRepeat(rows: seq<AuditEvent>, eventType: string, fingerprint: string): (r: Option<AuditEvent>)
    ensures r.Some? ==> r.value in rows && IsRepeat(r.value, eventType, fingerprint)
    ensures r.None? ==> forall e :: e in rows ==> !IsRepeat(e, eventType, fingerprint)
  {
    if rows == [] then None
    else if IsRepeat(rows[0], eventType, fingerprint) then Some(rows[0])
    else FindRepeat(rows[1..], eventType, fingerprint)
  }

  function FindHash(events: seq<AuditEvent>, hash: string): (r: Option<AuditEvent>)
    ensures r.Some? ==> r.value in events && r.value.eventHash == hash
    ensures r.None? ==> forall e :: e in events ==> e.eventHash != hash
  {
    if events == [] then None else if events[0].eventHash == hash then Some(events[0]) else FindHash(events[1..], hash)
  }

  /** The row of an input that is linked to `previous`. */
  function LinkedEvent(h: Hashes, input: Input, previous: string): AuditEvent {
    var payload := StoredPayload(input, h.fingerprint(input));
    AuditEvent(input.entity, input.eventType, payload, previous, h.event(Hashed(input.entity, input.eventType, payload, previous)))
  }

  function NextEvent(h: Hashes, events: seq<AuditEvent>, input: Input): AuditEvent {
    var rows := Rows(events, input.entity);
    LinkedEvent(h, input, HashBefore(rows, |rows|))
  }

  function Append(h: Hashes, events: seq<AuditEvent>, input: Input): (seq<AuditEvent>, AuditEvent) {
    match FindRepeat(Rows(events, input.entity), input.eventType, h.fingerprint(input))
    case Some(prior) => (events, prior)
    case None =>
      var next := NextEvent(h, events, input);
      match FindHash(events, next.eventHash)
      case Some(existing) => (events, existing)
      case None => (events + [next], next)
  }

  function Run(h: Hashes, inputs: seq<Input>): seq<AuditEvent> {
    if inputs == [] then [] else Append(h, Run(h, inputs[..|inputs| - 1]), inputs[|inputs| - 1]).0
  }

  // ------------------------------------------------------------------ verification

  predicate LinkAt(h: Hashes, rows: seq<AuditEvent>, i: nat)
    requires i < |rows|
  {
    var e, previous := rows[i], HashBefore(rows, i);
    e.previousEventHash == previous && e.eventHash == h.event(Hashed(e.entity, e.eventType, e.payload, previous))
  }

  predicate Verified(h: Hashes, rows: seq<AuditEvent>) {
    forall i :: 0 <= i < |rows| ==> LinkAt(h, rows, i)
  }

  class AuditService {
    const h: Hashes
    var events: seq<AuditEvent>

    constructor (h: Hashes)
      ensures this.h == h && events == []
    {
      this.h := h;
      events := [];
    }

    method AppendEvent(input: Input) returns (e: AuditEvent)
      modifies this
      ensures (events, e) == Append(h, old(events), input)
    {
      var rows := Rows(events, input.entity);
      var previousHash := if |rows| > 0 then rows[|rows| - 1].eventHash else GENESIS;
      var fingerprint := h.fingerprint(input);
      var prior := FindRepeat(rows, input.eventType, fingerprint);
      if prior.Some? { return prior.value; }
      var payload := StoredPayload(input, fingerprint);
      var eventHash := h.event(Hashed(input.entity, input.eventType, payload, previousHash));
      var existing := FindHash(events, eventHash);
      if existing.Some? { return existing.value; }
      e := AuditEvent(input.entity, input.eventType, payload, previousHash, eventHash);
      events := events + [e];
    }

    method VerifyChain(entity: Entity) returns (ok: bool)
      ensures ok == Verified(h, Rows(events, entity))
    {
      var rows := Rows(events, entity);
      var prev := GENESIS;
      var i := 0;
      while i < |rows|
        invariant 0 <= i <= |rows| && prev == HashBefore(rows, i)
        invariant forall j :: 0 <= j < i ==> LinkAt(h, rows, j)
      {
        var e := rows[i];
        assert LinkAt(h, rows, i) <==>
          e.previousEventHash == prev && e.eventHash == h.event(Hashed(e.entity, e.eventType, e.payload, prev));
        if e.previousEventHash != prev { return false; }
        var recomputed := h.event(Hashed(e.entity, e.eventType, e.payload, prev));
        if recomputed != e.eventHash { return false; }
        prev := e.eventHash;
        i := i + 1;
      }
      return true;
    }
  }

  // -------------------------------------------------- what each chain contains

  /** The inputs of one entity, in order. */
  function InputsOf(inputs: seq<Input>, entity: Entity): seq<Input> {
    if inputs == [] then []
    else
      var n := |inputs| - 1;
      InputsOf(inputs[..n], entity) + (if inputs[n].entity == entity then [inputs[n]] else [])
  }

  /** An earlier input with the same type and fingerprint. */
  predicate Seen(h: Hashes, inputs: seq<Input>, x: Input) {
    exists i :: 0 <= i < |inputs| && inputs[i].eventType == x.eventType && h.fingerprint(inputs[i]) == h.fingerprint(x)
  }

  /** First occurrences only. */
  function Distinct(h: Hashes, inputs: seq<Input>): seq<Input> {
    if inputs == [] then []
    else
      var init, last := inputs[..|inputs| - 1], inputs[|inputs| - 1];
      if Seen(h, init, last) then Distinct(h, init) else Distinct(h, init) + [last]
  }

  predicate Records(h: Hashes, e: AuditEvent, x: Input) {
    e.entity == x.entity && e.eventType == x.eventType && e.payload == StoredPayload(x, h.fingerprint(x))
  }

  predicate RecordAll(h: Hashes, rows: seq<AuditEvent>, xs: seq<Input>) {
    |rows| == |xs| && forall i :: 0 <= i < |rows| ==> Records(h, rows[i], xs[i])
  }

  ghost predicate EntityOk(h: Hashes, events: seq<AuditEvent>, inputs: seq<Input>, entity: Entity) {
    RecordAll(h, Rows(events, entity), Distinct(h, InputsOf(inputs, entity))) && Verified(h, Rows(events, entity))
  }

  lemma {:induction false} RowsOfAppend(events: seq<AuditEvent>, e: AuditEvent, entity: Entity)
    ensures Rows(events + [e], entity) == Rows(events, entity) + (if e.entity == entity then [e] else [])
  {
    assert (events + [e])[..|events|] == events;
  }

  lemma {:induction false} InRows(events: seq<AuditEvent>, e: AuditEvent)
    requires e in events
    ensures e in Rows(events, e.entity)
    decreases |events|
  {
    var n := |events| - 1;
    if e != events[n] {
      assert e in events[..n];
      InRows(events[..n], e);
    }
  }

  lemma {:induction false} RowsAreRows(events: seq<AuditEvent>, entity: Entity)
    ensures forall e :: e in Rows(events, entity) ==> e in events && e.entity == entity
    decreases |events|
  {
    if events != [] {
      RowsAreRows(events[..|events| - 1], entity);
    }
  }

  lemma VerifiedExtends(h: Hashes, rows: seq<AuditEvent>, e: AuditEvent)
    requires Verified(h, rows) && LinkAt(h, rows + [e], |rows|)
    ensures Verified(h, rows + [e])
  {
    forall i | 0 <= i < |rows + [e]| ensures LinkAt(h, rows + [e], i) {
      if i < |rows| {
        assert LinkAt(h, rows, i);
      }
    }
  }

  /** Every stored event carries the hash of its own fields. */
  lemma {:induction false} StoredHash(h: Hashes, events: seq<AuditEvent>, e: AuditEvent)
    requires e in events && Verified(h, Rows(events, e.entity))
    ensures e.eventHash == h.event(Hashed(e.entity, e.eventType, e.payload, e.previousEventHash))
  {
    InRows(events, e);
    var rows := Rows(events, e.entity);
    var i :| 0 <= i < |rows| && rows[i] == e;
    assert LinkAt(h, rows, i);
  }

  /** The lookup by event hash finds nothing once the lookup by fingerprint found nothing. */
  lemma {:induction false} HashLookupIsDead(h: Hashes, events: seq<AuditEvent>, input: Input)
    requires Faithful(h) && (forall e :: e in events ==> Verified(h, Rows(events, e.entity)))
    requires FindRepeat(Rows(events, input.entity), input.eventType, h.fingerprint(input)).None?
    ensures FindHash(events, NextEvent(h, events, input).eventHash).None?
  {
    var next := NextEvent(h, events, input);
    var found := FindHash(events, next.eventHash);
    if found.Some? {
      var e := found.value;
      StoredHash(h, events, e);
      var x, y := Hashed(e.entity, e.eventType, e.payload, e.previousEventHash),
                  Hashed(next.entity, next.eventType, next.payload, next.previousEventHash);
      assert h.event(x) == h.event(y);
      CanonKeepsFingerprint(next.payload, e.payload, h.fingerprint(input));
      InRows(events, e);
      assert IsRepeat(e, input.eventType, h.fingerprint(input));
    }
  }

  /** The rows show a repeat exactly when an input of the chain had that type and fingerprint. */
  lemma {:induction false} RepeatIsSeen(h: Hashes, rows: seq<AuditEvent>, xs: seq<Input>, x: Input)
    requires RecordAll(h, rows, Distinct(h, xs))
    ensures FindRepeat(rows, x.eventType, h.fingerprint(x)).Some? <==> Seen(h, xs, x)
  {
    DistinctCovers(h, xs, x);
    var ds := Distinct(h, xs);
    if FindRepeat(rows, x.eventType, h.fingerprint(x)).Some? {
      var e := FindRepeat(rows, x.eventType, h.fingerprint(x)).value;
      var i :| 0 <= i < |rows| && rows[i] == e;
      assert Records(h, rows[i], ds[i]);
      OneFingerprint(StoredPayload(ds[i], h.fingerprint(ds[i])), h.fingerprint(ds[i]), h.fingerprint(x));
      assert Seen(h, ds, x);
    }
    if Seen(h, xs, x) {
      var i :| 0 <= i < |ds| && ds[i].eventType == x.eventType && h.fingerprint(ds[i]) == h.fingerprint(x);
      assert Records(h, rows[i], ds[i]);
      assert IsRepeat(rows[i], x.eventType, h.fingerprint(x));
    }
  }

  lemma OneFingerprint(p: Payload, f: string, g: string)
    requires HasFingerprint(p, f) && HasFingerprint(p, g)
    ensures f == g
  {
    var i :| 0 <= i < |p| && p[i] == Field(FINGERPRINT, JStr(f));
    var j :| 0 <= j < |p| && p[j] == Field(FINGERPRINT, JStr(g));
    assert i == j;
  }

  lemma {:induction false} DistinctCovers(h: Hashes, xs: seq<Input>, x: Input)
    ensures Seen(h, Distinct(h, xs), x) <==> Seen(h, xs, x)
    decreases |xs|
  {
    if xs != [] {
      var init, last := xs[..|xs| - 1], xs[|xs| - 1];
      DistinctCovers(h, init, x);
      DistinctCovers(h, init, last);
      SeenSnoc(h, init, last, x);
      SeenSnoc(h, Distinct(h, init), last, x);
      assert xs == init + [last];
      if Seen(h, init, last) && last.eventType == x.eventType && h.fingerprint(last) == h.fingerprint(x) {
        var i :| 0 <= i < |init| && init[i].eventType == last.eventType && h.fingerprint(init[i]) == h.fingerprint(last);
        assert Seen(h, init, x);
      }
    }
  }

  lemma SeenSnoc(h: Hashes, xs: seq<Input>, y: Input, x: Input)
    ensures Seen(h, xs + [y], x) <==> Seen(h, xs, x) || (y.eventType == x.eventType && h.fingerprint(y) == h.fingerprint(x))
  {
    var all := xs + [y];
    if Seen(h, xs, x) {
      var i :| 0 <= i < |xs| && xs[i].eventType == x.eventType && h.fingerprint(xs[i]) == h.fingerprint(x);
      assert all[i] == xs[i];
    }
    assert all[|xs|] == y;
  }

  lemma {:induction false} EveryEventVerifies(h: Hashes, inputs: seq<Input>)
    requires Faithful(h)
    ensures forall entity :: EntityOk(h, Run(h, inputs), inputs, entity)
    decreases |inputs|
  {
    if inputs == [] {
    } else {
      var init, last := inputs[..|inputs| - 1], inputs[|inputs| - 1];
      var events := Run(h, init);
      EveryEventVerifies(h, init);
      AppendAddsUnlessSeen(h, events, init, last);
      NextEventFits(h, events, last);
      forall entity ensures EntityOk(h, Run(h, inputs), inputs, entity) {
        AppendedEntityOk(h, events, init, last, NextEvent(h, events, last), entity);
        assert inputs == init + [last];
      }
    }
  }

  /** An append adds its row exactly when its chain has not seen the input. */
  lemma {:induction false} AppendAddsUnlessSeen(h: Hashes, events: seq<AuditEvent>, inputs: seq<Input>, x: Input)
    requires Faithful(h) && forall entity :: EntityOk(h, events, inputs, entity)
    ensures Append(h, events, x).0 ==
      if Seen(h, InputsOf(inputs, x.entity), x) then events else events + [NextEvent(h, events, x)]
  {
    assert EntityOk(h, events, inputs, x.entity);
    RepeatIsSeen(h, Rows(events, x.entity), InputsOf(inputs, x.entity), x);
    if !Seen(h, InputsOf(inputs, x.entity), x) {
      forall e | e in events ensures Verified(h, Rows(events, e.entity)) {
        assert EntityOk(h, events, inputs, e.entity);
      }
      HashLookupIsDead(h, events, x);
    }
  }

  /** A repeat leaves the distinct inputs alone; a new input is recorded by the row linked after the others. */
  lemma {:induction false} ChainExtends(h: Hashes, rows: seq<AuditEvent>, xs: seq<Input>, x: Input, next: AuditEvent)
    requires RecordAll(h, rows, Distinct(h, xs)) && Verified(h, rows)
    requires Records(h, next, x) && LinkAt(h, rows + [next], |rows|)
    ensures Distinct(h, xs + [x]) == if Seen(h, xs, x) then Distinct(h, xs) else Distinct(h, xs) + [x]
    ensures !Seen(h, xs, x) ==> RecordAll(h, rows + [next], Distinct(h, xs + [x]))
    ensures Verified(h, rows + [next])
  {
    assert (xs + [x])[..|xs|] == xs;
    VerifiedExtends(h, rows, next);
  }

  lemma {:induction false} NextEventFits(h: Hashes, events: seq<AuditEvent>, x: Input)
    ensures Records(h, NextEvent(h, events, x), x)
    ensures var rows := Rows(events, x.entity); LinkAt(h, rows + [NextEvent(h, events, x)], |rows|)
  {
  }

  lemma AppendedEntityOk(h: Hashes, events: seq<AuditEvent>, init: seq<Input>, x: Input, next: AuditEvent, entity: Entity)
    requires EntityOk(h, events, init, entity)
    requires Records(h, next, x) && (x.entity == entity ==> LinkAt(h, Rows(events, entity) + [next], |Rows(events, entity)|))
    ensures EntityOk(h, if Seen(h, InputsOf(init, x.entity), x) then events else events + [next], init + [x], entity)
  {
    assert (init + [x])[..|init|] == init;
    RowsOfAppend(events, next, entity);
    var xs := InputsOf(init, entity);
    if x.entity == entity {
      assert InputsOf(init + [x], entity) == xs + [x];
      ChainExtends(h, Rows(events, entity), xs, x, next);
    } else {
      assert InputsOf(init + [x], entity) == xs;
      assert Rows(events + [next], entity) == Rows(events, entity);
    }
  }

  /**
   * For any interleaving of appends over any entities: each entity's chain is exactly its
   * own inputs, in order, without later repeats, and it verifies.
   */
  lemma {:induction false} ChainIsOwnInputsWithoutRepeats(h: Hashes, inputs: seq<Input>, entity: Entity)
    requires Faithful(h)
    ensures var rows := Rows(Run(h, inputs), entity); var own := Distinct(h, InputsOf(inputs, entity));
      && |rows| == |own|
      && (forall i :: 0 <= i < |rows| ==>
            rows[i].entity == own[i].entity && rows[i].eventType == own[i].eventType
            && rows[i].payload == StoredPayload(own[i], h.fingerprint(own[i])))
      && Verified(h, rows)
  {
    EveryEventVerifies(h, inputs);
    assert EntityOk(h, Run(h, inputs), inputs, entity);
    var rows, own := Rows(Run(h, inputs), entity), Distinct(h, InputsOf(inputs, entity));
    assert forall i :: 0 <= i < |rows| ==> Records(h, rows[i], own[i]);
  }

  /** Replaying an input at any later time adds nothing and returns the row stored for it. */
  lemma {:induction false} ReplayReturnsStoredRow(h: Hashes, inputs: seq<Input>, k: nat)
    requires Faithful(h) && k < |inputs|
    ensures var (events, e) := Append(h, Run(h, inputs), inputs[k]);
      events == Run(h, inputs) && e in events && IsRepeat(e, inputs[k].eventType, h.fingerprint(inputs[k])) && e.entity == inputs[k].entity
  {
    var x := inputs[k];
    EveryEventVerifies(h, inputs);
    assert EntityOk(h, Run(h, inputs), inputs, x.entity);
    var i := OwnInput(inputs, k);
    assert Seen(h, InputsOf(inputs, x.entity), x);
    RepeatIsSeen(h, Rows(Run(h, inputs), x.entity), InputsOf(inputs, x.entity), x);
    RowsAreRows(Run(h, inputs), x.entity);
  }

  lemma {:induction false} OwnInput(inputs: seq<Input>, k: nat) returns (i: nat)
    requires k < |inputs|
    ensures i < |InputsOf(inputs, inputs[k].entity)| && InputsOf(inputs, inputs[k].entity)[i] == inputs[k]
    decreases |inputs|
  {
    var n := |inputs| - 1;
    if k == n {
      i := |InputsOf(inputs[..n], inputs[k].entity)|;
    } else {
      i := OwnInput(inputs[..n], k);
    }
  }

  // ------------------------------------------------------------- the real hashes

  function EventPreImage(x: Hashed): seq<Field> {
    [Field("companyId", JStr(x.entity.companyId)), Field("entityType", JStr(x.entity.entityType)),
     Field("entityId", JStr(x.entity.entityId)), Field("eventType", JStr(x.eventType)),
     Field("payload", JObj(x.payload)), Field("previousEventHash", JStr(x.previousEventHash))]
  }

  function FingerprintPreImage(x: Input): seq<Field> {
    [Field("companyId", JStr(x.entity.companyId)), Field("entityType", JStr(x.entity.entityType)),
     Field("entityId", JStr(x.entity.entityId)), Field("eventType", JStr(x.eventType)), Field("payload", JObj(x.payload)),
     Field("references", x.references), Field("eventKey", if x.eventKey.Some? then JStr(x.eventKey.value) else JNull)]
  }

  function Sha256Hashes(digest: Json -> string): Hashes {
    Hashes(x => Hash(digest, JObj(EventPreImage(x))), x => Hash(digest, JObj(FingerprintPreImage(x))))
  }

  lemma DistinctNames(fs: seq<Field>)
    requires |fs| == 6 && fs[0].key == "companyId" && fs[1].key == "entityType" && fs[2].key == "entityId"
    requires fs[3].key == "eventType" && fs[4].key == "payload" && fs[5].key == "previousEventHash"
    ensures DistinctKeys(fs) && forall i :: 0 <= i < |fs| ==> fs[i].key != PROTO
  {
    assert |fs[0].key| == 9 && |fs[1].key| == 10 && |fs[2].key| == 8 && |fs[3].key| == 9 && |fs[4].key| == 7 && |fs[5].key| == 17;
    assert fs[0].key[0] == 'c' && fs[3].key[0] == 'e' && PROTO[0] == '_' && |PROTO| == 9;
  }

  /** With an injective digest, the event hash of the code is faithful. */
  lemma Sha256HashesAreFaithful(digest: Json -> string)
    requires Injective(digest)
    ensures Faithful(Sha256Hashes(digest))
  {
    var h := Sha256Hashes(digest);
    forall x, y | h.event(x) == h.event(y)
      ensures x.entity == y.entity && x.eventType == y.eventType
      ensures Canon(JObj(x.payload)) == Canon(JObj(y.payload)) && x.previousEventHash == y.previousEventHash
    {
      var fs, gs := EventPreImage(x), EventPreImage(y);
      DistinctNames(fs);
      RecordsAgree(fs, gs);
      FieldsSayAll(x, y);
    }
  }

  lemma FieldsSayAll(x: Hashed, y: Hashed)
    requires forall i :: 0 <= i < 6 ==> Canon(EventPreImage(x)[i].value) == Canon(EventPreImage(y)[i].value)
    ensures x.entity == y.entity && x.eventType == y.eventType
    ensures Canon(JObj(x.payload)) == Canon(JObj(y.payload)) && x.previousEventHash == y.previousEventHash
  {
    var fs, gs := EventPreImage(x), EventPreImage(y);
    assert Canon(fs[0].value) == Canon(gs[0].value) && Canon(fs[1].value) == Canon(gs[1].value);
    assert Canon(fs[2].value) == Canon(gs[2].value) && Canon(fs[3].value) == Canon(gs[3].value);
    assert Canon(fs[4].value) == Canon(gs[4].value) && Canon(fs[5].value) == Canon(gs[5].value);
  }

  // -------------------------------------------------------------- the fingerprint

  lemma FingerprintNames(x: Input, y: Input)
    ensures var fs, gs := FingerprintPreImage(x), FingerprintPreImage(y);
      && |fs| == |gs| == 7 && DistinctKeys(fs)
      && forall i :: 0 <= i < 7 ==> fs[i].key == gs[i].key && fs[i].key != PROTO
  {
    var fs := FingerprintPreImage(x);
    assert |fs[0].key| == 9 && |fs[1].key| == 10 && |fs[2].key| == 8 && |fs[3].key| == 9 && |fs[4].key| == 7
        && |fs[5].key| == 10 && |fs[6].key| == 8;
    assert fs[0].key[0] == 'c' && fs[3].key[0] == 'e' && fs[1].key[0] == 'e' && fs[5].key[0] == 'r';
    assert fs[2].key[1] == 'n' && fs[6].key[1] == 'v' && PROTO[0] == '_' && |PROTO| == 9;
  }

  /** The inputs the code takes for one logical event; two inputs without a key can be. */
  predicate SameInput(x: Input, y: Input) {
    && x.entity == y.entity && x.eventType == y.eventType && x.eventKey == y.eventKey
    && Canon(JObj(x.payload)) == Canon(JObj(y.payload)) && Canon(x.references) == Canon(y.references)
  }

  /** With an injective digest, two inputs share a fingerprint exactly when they agree in everything, up to key order. */
  lemma FingerprintSeparates(digest: Json -> string, x: Input, y: Input)
    requires Injective(digest)
    ensures Sha256Hashes(digest).fingerprint(x) == Sha256Hashes(digest).fingerprint(y) <==> SameInput(x, y)
  {
    var fs, gs := FingerprintPreImage(x), FingerprintPreImage(y);
    FingerprintNames(x, y);
    if Sha256Hashes(digest).fingerprint(x) == Sha256Hashes(digest).fingerprint(y) {
      RecordsAgree(fs, gs);
      SameValuesSameInput(x, y);
    }
    if SameInput(x, y) {
      forall i | 0 <= i < 7 ensures Canon(fs[i].value) == Canon(gs[i].value) {
        SameInputSameValues(x, y, i);
      }
      EqualFieldsEqualCanon(fs, gs);
    }
  }

  lemma SameValuesSameInput(x: Input, y: Input)
    requires forall i :: 0 <= i < 7 ==> Canon(FingerprintPreImage(x)[i].value) == Canon(FingerprintPreImage(y)[i].value)
    ensures SameInput(x, y)
  {
    var fs, gs := FingerprintPreImage(x), FingerprintPreImage(y);
    assert Canon(fs[0].value) == Canon(gs[0].value) && Canon(fs[1].value) == Canon(gs[1].value);
    assert Canon(fs[2].value) == Canon(gs[2].value) && Canon(fs[3].value) == Canon(gs[3].value);
    assert Canon(fs[4].value) == Canon(gs[4].value) && Canon(fs[5].value) == Canon(gs[5].value);
    assert Canon(fs[6].value) == Canon(gs[6].value);
  }

  lemma SameInputSameValues(x: Input, y: Input, i: nat)
    requires SameInput(x, y) && i < 7
    ensures Canon(FingerprintPreImage(x)[i].value) == Canon(FingerprintPreImage(y)[i].value)
  {
  }

  lemma {:induction false} EqualFieldsEqualCanon(fs: seq<Field>, gs: seq<Field>)
    requires |fs| == |gs| && forall i :: 0 <= i < |fs| ==> fs[i].key == gs[i].key && Canon(fs[i].value) == Canon(gs[i].value)
    ensures CanonFields(fs) == CanonFields(gs)
    decreases |fs|
  {
    if fs != [] {
      EqualFieldsEqualCanon(fs[1..], gs[1..]);
    }
  }

  lemma {:induction false} InputsOfAre(inputs: seq<Input>, entity: Entity)
    ensures forall x :: x in InputsOf(inputs, entity) ==> x in inputs && x.entity == entity
    decreases |inputs|
  {
    if inputs != [] {
      InputsOfAre(inputs[..|inputs| - 1], entity);
    }
  }

  lemma {:induction false} SeenIffSameInput(digest: Json -> string, inputs: seq<Input>, x: Input)
    requires Injective(digest)
    ensures Seen(Sha256Hashes(digest), InputsOf(inputs, x.entity), x) <==> exists i :: 0 <= i < |inputs| && SameInput(inputs[i], x)
  {
    var h, own := Sha256Hashes(digest), InputsOf(inputs, x.entity);
    if Seen(h, own, x) {
      var k :| 0 <= k < |own| && own[k].eventType == x.eventType && h.fingerprint(own[k]) == h.fingerprint(x);
      InputsOfAre(inputs, x.entity);
      FingerprintSeparates(digest, own[k], x);
      assert own[k] in inputs;
    }
    if i :| 0 <= i < |inputs| && SameInput(inputs[i], x) {
      var k := OwnInput(inputs, i);
      FingerprintSeparates(digest, inputs[i], x);
      assert own[k] == inputs[i];
    }
  }

  /**
   * With an injective digest, an append adds a row if and only if no earlier input agrees
   * with it in everything. That two events have no key does not make them different.
   */
  lemma {:induction false} AppendAddsIffNew(digest: Json -> string, inputs: seq<Input>, x: Input)
    requires Injective(digest)
    ensures var h := Sha256Hashes(digest); var events := Run(h, inputs);
      Append(h, events, x).0 == events + [NextEvent(h, events, x)] <==> forall i :: 0 <= i < |inputs| ==> !SameInput(inputs[i], x)
  {
    var h := Sha256Hashes(digest);
    var events := Run(h, inputs);
    Sha256HashesAreFaithful(digest);
    EveryEventVerifies(h, inputs);
    AppendAddsUnlessSeen(h, events, inputs, x);
    SeenIffSameInput(digest, inputs, x);
    assert |events + [NextEvent(h, events, x)]| == |events| + 1;
  }
}
