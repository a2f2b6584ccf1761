/**
 * The trajectory log: per trace a hash chain whose events are appended in strict sequence,
 * and the worker that feeds it from an at-least-once stream. The digest is a parameter.
 */
module Trajectory {
  import opened Wrappers
  import opened JsonCanonical
  import N = DecimalStrings
  import S = SpelledJson

  const GENESIS := "sha256:genesis"

  datatype TraceStatus = ACTIVE | COMPLETED | ABORTED | CORRUPTED

  datatype Trace = Trace(companyId: string, agentId: string, status: TraceStatus, sequenceHead: int, headHash: string)

  datatype Event = Event(
    traceId: string, companyId: string, agentId: string, sequence: int, eventType: string, timestamp: int,
    payload: Json, provenanceRefs: Option<seq<string>>, previousEventHash: string, eventHash: string)

  /** `timestamp` is the parsed instant in milliseconds, absent when the text is no date. */
  datatype AppendInput = AppendInput(
    companyId: string, traceId: string, agentId: string, sequence: int, eventType: string, timestamp: Option<int>,
    payload: Json, provenanceRefs: Option<seq<string>>, eventHash: Option<string>, previousEventHash: Option<string>)

  datatype Refusal = NotFound | WrongAgent | NotActive | OutOfOrder | WrongPrevious | BadTimestamp | WrongHash

  datatype Appended = Stored(event: Event) | Refused(why: Refusal)

  datatype State = State(traces: map<string, Trace>, events: seq<Event>)

  const EMPTY := State(map[], [])

  // --------------------------------------------------------------------- hashing

  /** The fields of an event that are hashed. */
  datatype Hashed = Hashed(
    traceId: string, sequence: int, eventType: string, timestamp: int, payload: Json,
    provenanceRefs: Option<seq<string>>, previousEventHash: string)

  type HashFunction = Hashed -> string

  function RefsOf(refs: Option<seq<string>>): seq<string> {
    if refs.Some? then refs.value else []
  }

  /** Equal in every hashed field: the payload up to key order, absent provenance as empty. */
  predicate SameHashed(x: Hashed, y: Hashed) {
    && x.traceId == y.traceId && x.sequence == y.sequence && x.eventType == y.eventType && x.timestamp == y.timestamp
    && Canon(x.payload) == Canon(y.payload) && RefsOf(x.provenanceRefs) == RefsOf(y.provenanceRefs)
    && x.previousEventHash == y.previousEventHash
  }

  /** Only events that agree in every hashed field have the same hash. */
  ghost predicate Faithful(h: HashFunction) {
    forall x, y :: h(x) == h(y) ==> SameHashed(x, y)
  }

  // ------------------------------------------------------------------ operations

  /** `agentKnown`: the agent exists in the company. */
  function CreateTrace(s: State, companyId: string, agentId: string, agentKnown: bool, id: string): (State, Result<string>) {
    if !agentKnown then (s, Err(TENANT_ERROR))
    else if id in s.traces then (s, Err(CONFLICT))
    else (s.(traces := s.traces[id := Trace(companyId, agentId, ACTIVE, 0, GENESIS)]), Ok(id))
  }

  function CompleteTrace(s: State, companyId: string, id: string): (State, Result<string>) {
    if id !in s.traces || s.traces[id].companyId != companyId then (s, Err(NOT_FOUND))
    else (s.(traces := s.traces[id := s.traces[id].(status := COMPLETED)]), Ok(id))
  }

  function FindHash(events: seq<Event>, hash: string): Option<Event> {
    if events == [] then None
    else if events[0].eventHash == hash then Some(events[0])
    else FindHash(events[1..], hash)
  }

  /** The checks made before the hash: why an event is refused, if it is. */
  function Admission(s: State, input: AppendInput): Option<Refusal> {
    if input.traceId !in s.traces || s.traces[input.traceId].companyId != input.companyId then Some(NotFound)
    else
      var trace := s.traces[input.traceId];
      if input.agentId != trace.agentId then Some(WrongAgent)
      else if trace.status != ACTIVE then Some(NotActive)
      else if input.sequence != trace.sequenceHead + 1 then Some(OutOfOrder)
      else if input.previousEventHash.Some? && input.previousEventHash.value != trace.headHash then Some(WrongPrevious)
      else if input.timestamp.None? then Some(BadTimestamp)
      else None
  }

  function NextHash(h: HashFunction, s: State, input: AppendInput): string
    requires Admission(s, input).None?
  {
    h(Hashed(input.traceId, input.sequence, input.eventType, input.timestamp.value, input.payload,
             input.provenanceRefs, s.traces[input.traceId].headHash))
  }

  function NextEvent(h: HashFunction, s: State, input: AppendInput): Event
    requires Admission(s, input).None?
  {
    Event(input.traceId, input.companyId, input.agentId, input.sequence, input.eventType, input.timestamp.value,
          input.payload, input.provenanceRefs, s.traces[input.traceId].headHash, NextHash(h, s, input))
  }

  function Append(h: HashFunction, s: State, input: AppendInput): (State, Appended) {
    match Admission(s, input)
    case Some(why) => (s, Refused(why))
    case None =>
      var computed := NextHash(h, s, input);
      if input.eventHash.Some? && input.eventHash.value != computed then (s, Refused(WrongHash))
      else
        match FindHash(s.events, computed)
        case Some(dup) => (s, Stored(dup))
        case None =>
          var event := NextEvent(h, s, input);
          (State(s.traces[input.traceId := s.traces[input.traceId].(sequenceHead := input.sequence, headHash := computed)],
                 s.events + [event]),
           Stored(event))
  }

  // ----------------------------------------------------------------- reading back

  /** The rows of one trace, in the order they were inserted. */
  function Rows(events: seq<Event>, companyId: string, traceId: string): seq<Event> {
    if events == [] then []
    else
      var n := |events| - 1;
      Rows(events[..n], companyId, traceId)
      + (if events[n].companyId == companyId && events[n].traceId == traceId then [events[n]] else [])
  }

  function PutInSequence(sorted: seq<Event>, e: Event): seq<Event> {
    if sorted == [] || sorted[|sorted| - 1].sequence <= e.sequence then sorted + [e]
    else PutInSequence(sorted[..|sorted| - 1], e) + [sorted[|sorted| - 1]]
  }

  function BySequence(rows: seq<Event>): seq<Event> {
    if rows == [] then [] else PutInSequence(BySequence(rows[..|rows| - 1]), rows[|rows| - 1])
  }

  /** `getEvents`: the rows of a trace ordered by sequence. */
  function EventsOf(s: State, companyId: string, traceId: string): seq<Event> {
    BySequence(Rows(s.events, companyId, traceId))
  }

  function HashBefore(events: seq<Event>, i: nat): string
    requires i <= |events|
  {
    if i == 0 then GENESIS else events[i - 1].eventHash
  }

  function HashedFields(traceId: string, e: Event, previous: string): Hashed {
    Hashed(traceId, e.sequence, e.eventType, e.timestamp, e.payload, e.provenanceRefs, previous)
  }

  /** Event `i` follows the one before it and its hash is the hash of its own content. */
  predicate LinkAt(h: HashFunction, traceId: string, events: seq<Event>, i: nat)
    requires i < |events|
  {
    var e, previous := events[i], HashBefore(events, i);
    && e.sequence == i + 1
    && e.previousEventHash == previous
    && e.eventHash == h(HashedFields(traceId, e, previous))
  }

  /** Contiguous sequences, linked hashes, and every hash the hash of its own content. */
  predicate Verified(h: HashFunction, traceId: string, events: seq<Event>) {
    forall i :: 0 <= i < |events| ==> LinkAt(h, traceId, events, i)
  }

  // ------------------------------------------------------------------- the service

  class TrajectoryService {
    const h: HashFunction
    var traces: map<string, Trace>
    var events: seq<Event>

    constructor (h: HashFunction)
      ensures this.h == h && Contents() == EMPTY
    {
      this.h := h;
      traces, events := map[], [];
    }

    function Contents(): State
      reads this
    {
      State(traces, events)
    }

    method Create(companyId: string, agentId: string, agentKnown: bool, id: string) returns (r: Result<string>)
      modifies this
      ensures (Contents(), r) == CreateTrace(old(Contents()), companyId, agentId, agentKnown, id)
    {
      if !agentKnown { return Err(TENANT_ERROR); }
      if id in traces { return Err(CONFLICT); }
      traces := traces[id := Trace(companyId, agentId, ACTIVE, 0, GENESIS)];
      r := Ok(id);
    }

    method AppendEvent(input: AppendInput) returns (r: Appended)
      modifies this
      ensures (Contents(), r) == Append(h, old(Contents()), input)
    {
      var refusal := Admission(Contents(), input);
      if refusal.Some? { return Refused(refusal.value); }
      var trace := traces[input.traceId];
      var computed := h(Hashed(input.traceId, input.sequence, input.eventType, input.timestamp.value,
                               input.payload, input.provenanceRefs, trace.headHash));
      if input.eventHash.Some? && input.eventHash.value != computed { return Refused(WrongHash); }
      var dup := FindHash(events, computed);
      if dup.Some? { return Stored(dup.value); }
      var event := Event(input.traceId, input.companyId, input.agentId, input.sequence, input.eventType, input.timestamp.value,
                         input.payload, input.provenanceRefs, trace.headHash, computed);
      events := events + [event];
      traces := traces[input.traceId := trace.(sequenceHead := input.sequence, headHash := computed)];
      r := Stored(event);
    }

    method Complete(companyId: string, id: string) returns (r: Result<string>)
      modifies this
      ensures (Contents(), r) == CompleteTrace(old(Contents()), companyId, id)
    {
      if id !in traces || traces[id].companyId != companyId { return Err(NOT_FOUND); }
      traces := traces[id := traces[id].(status := COMPLETED)];
      r := Ok(id);
    }

    /** Walks the chain, recomputing every hash. */
    method VerifyChain(companyId: string, traceId: string) returns (ok: bool)
      ensures ok == Verified(h, traceId, EventsOf(Contents(), companyId, traceId))
    {
      var rows := EventsOf(Contents(), companyId, traceId);
      var prev := GENESIS;
      var expectedSeq := 1;
      var i := 0;
      while i < |rows|
        invariant 0 <= i <= |rows| && expectedSeq == i + 1 && prev == HashBefore(rows, i)
        invariant forall j :: 0 <= j < i ==> LinkAt(h, traceId, rows, j)
      {
        var e := rows[i];
        assert LinkAt(h, traceId, rows, i) <==>
          e.sequence == expectedSeq && e.previousEventHash == prev && e.eventHash == h(HashedFields(traceId, e, prev));
        if e.sequence != expectedSeq { return false; }
        if e.previousEventHash != prev { return false; }
        var recomputed := h(HashedFields(traceId, e, prev));
        if recomputed != e.eventHash { return false; }
        prev := e.eventHash;
        expectedSeq := expectedSeq + 1;
        i := i + 1;
      }
      return true;
    }
  }

  // ----------------------------------------------------------------- every run

  datatype Op =
    | OpCreate(companyId: string, agentId: string, agentKnown: bool, id: string)
    | OpAppend(input: AppendInput)
    | OpComplete(companyId: string, id: string)

  function Step(h: HashFunction, s: State, op: Op): State {
    match op
    case OpCreate(companyId, agentId, agentKnown, id) => CreateTrace(s, companyId, agentId, agentKnown, id).0
    case OpAppend(input) => Append(h, s, input).0
    case OpComplete(companyId, id) => CompleteTrace(s, companyId, id).0
  }

  function Run(h: HashFunction, s: State, ops: seq<Op>): State
    decreases |ops|
  {
    if ops == [] then s else Run(h, Step(h, s, ops[0]), ops[1..])
  }

  ghost predicate TraceOk(h: HashFunction, s: State, id: string)
    requires id in s.traces
  {
    var rows := Rows(s.events, s.traces[id].companyId, id);
    && Verified(h, id, rows)
    && s.traces[id].sequenceHead == |rows|
    && s.traces[id].headHash == HashBefore(rows, |rows|)
  }

  ghost predicate Inv(h: HashFunction, s: State) {
    && (forall id :: id in s.traces ==> TraceOk(h, s, id))
    && (forall i :: 0 <= i < |s.events| ==>
          s.events[i].traceId in s.traces && s.events[i].companyId == s.traces[s.events[i].traceId].companyId)
  }

  lemma {:induction false} RowsOfAppend(events: seq<Event>, e: Event, companyId: string, traceId: string)
    ensures Rows(events + [e], companyId, traceId)
         == Rows(events, companyId, traceId) + (if e.companyId == companyId && e.traceId == traceId then [e] else [])
  {
    assert (events + [e])[..|events|] == events;
  }

  lemma {:induction false} RowsOfNew(events: seq<Event>, companyId: string, traceId: string)
    requires forall i :: 0 <= i < |events| ==> events[i].traceId != traceId
    ensures Rows(events, companyId, traceId) == []
    decreases |events|
  {
    if events != [] {
      RowsOfNew(events[..|events| - 1], companyId, traceId);
    }
  }

  lemma VerifiedExtends(h: HashFunction, t: string, rows: seq<Event>, e: Event)
    requires Verified(h, t, rows) && LinkAt(h, t, rows + [e], |rows|)
    ensures Verified(h, t, rows + [e]) && HashBefore(rows + [e], |rows| + 1) == e.eventHash
  {
    var more := rows + [e];
    forall i | 0 <= i < |more| ensures LinkAt(h, t, more, i) {
      if i < |rows| {
        assert LinkAt(h, t, rows, i);
      }
    }
  }

  lemma OwnTraceStaysOk(h: HashFunction, s: State, s': State, id: string, e: Event)
    requires id in s.traces && id in s'.traces && TraceOk(h, s, id)
    requires s'.events == s.events + [e] && e.traceId == id && e.companyId == s.traces[id].companyId
    requires s'.traces[id] == s.traces[id].(sequenceHead := e.sequence, headHash := e.eventHash)
    requires e.sequence == s.traces[id].sequenceHead + 1 && e.previousEventHash == s.traces[id].headHash
    requires e.eventHash == h(HashedFields(id, e, e.previousEventHash))
    ensures TraceOk(h, s', id)
  {
    var rows := Rows(s.events, s.traces[id].companyId, id);
    RowsOfAppend(s.events, e, s.traces[id].companyId, id);
    assert LinkAt(h, id, rows + [e], |rows|);
    VerifiedExtends(h, id, rows, e);
  }

  lemma OtherTraceStaysOk(h: HashFunction, s: State, s': State, id: string, e: Event)
    requires id in s.traces && id in s'.traces && TraceOk(h, s, id)
    requires s'.events == s.events + [e] && e.traceId != id && s'.traces[id] == s.traces[id]
    ensures TraceOk(h, s', id)
  {
    RowsOfAppend(s.events, e, s.traces[id].companyId, id);
    assert Rows(s'.events, s'.traces[id].companyId, id) == Rows(s.events, s.traces[id].companyId, id);
  }

  lemma AppendKeepsInv(h: HashFunction, s: State, input: AppendInput)
    requires Inv(h, s)
    ensures Inv(h, Append(h, s, input).0)
  {
    var s' := Append(h, s, input).0;
    if s' != s {
      var e := NextEvent(h, s, input);
      forall id | id in s'.traces ensures TraceOk(h, s', id) {
        if id == input.traceId {
          OwnTraceStaysOk(h, s, s', id, e);
        } else {
          OtherTraceStaysOk(h, s, s', id, e);
        }
      }
    }
  }

  lemma StepKeepsInv(h: HashFunction, s: State, op: Op)
    requires Inv(h, s)
    ensures Inv(h, Step(h, s, op))
  {
    var s' := Step(h, s, op);
    match op
    case OpAppend(input) => AppendKeepsInv(h, s, input);
    case OpCreate(companyId, agentId, agentKnown, id) =>
      forall t | t in s'.traces ensures TraceOk(h, s', t) {
        if t in s.traces {
          assert TraceOk(h, s, t);
        } else {
          RowsOfNew(s.events, companyId, t);
        }
      }
    case OpComplete(companyId, id) =>
      forall t | t in s'.traces ensures TraceOk(h, s', t) {
        assert TraceOk(h, s, t);
      }
  }

  lemma {:induction false} RunKeepsInv(h: HashFunction, s: State, ops: seq<Op>)
    requires Inv(h, s)
    ensures Inv(h, Run(h, s, ops))
    decreases |ops|
  {
    if ops != [] {
      StepKeepsInv(h, s, ops[0]);
      RunKeepsInv(h, Step(h, s, ops[0]), ops[1..]);
    }
  }

  predicate Numbered(rows: seq<Event>) {
    forall i :: 0 <= i < |rows| ==> rows[i].sequence == i + 1
  }

  lemma {:induction false} NumberedRowsStay(rows: seq<Event>)
    requires Numbered(rows)
    ensures BySequence(rows) == rows
    decreases |rows|
  {
    if rows != [] {
      var init, last := rows[..|rows| - 1], rows[|rows| - 1];
      NumberedPrefix(rows, |rows| - 1);
      NumberedRowsStay(init);
      assert init != [] ==> init[|init| - 1].sequence <= last.sequence;
      assert rows == init + [last];
    }
  }

  lemma NumberedPrefix(rows: seq<Event>, n: nat)
    requires Numbered(rows) && n <= |rows|
    ensures Numbered(rows[..n])
    ensures 0 < n < |rows| ==> rows[..n][n - 1].sequence < rows[n].sequence
  {
    assert forall i :: 0 <= i < n ==> rows[..n][i] == rows[i];
  }

  /**
   * After any sequence of creations, appends (accepted or refused) and completions, every
   * trace passes verification, its head counts its events and holds the last hash.
   */
  lemma {:induction false} EveryTraceVerifies(h: HashFunction, ops: seq<Op>, id: string)
    requires id in Run(h, EMPTY, ops).traces
    ensures var s := Run(h, EMPTY, ops); var events := EventsOf(s, s.traces[id].companyId, id);
      && Verified(h, id, events)
      && s.traces[id].sequenceHead == |events|
      && s.traces[id].headHash == (if events == [] then GENESIS else events[|events| - 1].eventHash)
  {
    RunKeepsInv(h, EMPTY, ops);
    SoundTraceVerifies(h, Run(h, EMPTY, ops), id);
  }

  /** The invariant, read back through the ordered query. */
  lemma SoundTraceVerifies(h: HashFunction, s: State, id: string)
    requires Inv(h, s) && id in s.traces
    ensures var events := EventsOf(s, s.traces[id].companyId, id);
      && Verified(h, id, events)
      && s.traces[id].sequenceHead == |events|
      && s.traces[id].headHash == (if events == [] then GENESIS else events[|events| - 1].eventHash)
  {
    assert TraceOk(h, s, id);
    var rows := Rows(s.events, s.traces[id].companyId, id);
    assert Numbered(rows) by {
      forall i | 0 <= i < |rows| ensures rows[i].sequence == i + 1 {
        assert LinkAt(h, id, rows, i);
      }
    }
    NumberedRowsStay(rows);
  }

  // ------------------------------------------------------------ tamper evidence

  /** Two verified chains with the same head hash have the same length and the same hashed content. */
  lemma {:induction false} SameHeadSameChain(h: HashFunction, t: string, xs: seq<Event>, u: string, ys: seq<Event>)
    requires Faithful(h) && (forall v :: h(v) != GENESIS)
    requires Verified(h, t, xs) && Verified(h, u, ys)
    requires HashBefore(xs, |xs|) == HashBefore(ys, |ys|)
    ensures |xs| == |ys|
    ensures forall i :: 0 <= i < |xs| ==>
      SameHashed(HashedFields(t, xs[i], xs[i].previousEventHash), HashedFields(u, ys[i], ys[i].previousEventHash))
    decreases |xs|
  {
    if xs != [] {
      var m := |xs| - 1;
      assert LinkAt(h, t, xs, m);
    }
    if ys != [] {
      var n := |ys| - 1;
      assert LinkAt(h, u, ys, n);
    }
    if xs != [] && ys != [] {
      var m, n := |xs| - 1, |ys| - 1;
      VerifiedPrefix(h, t, xs);
      VerifiedPrefix(h, u, ys);
      assert SameHashed(HashedFields(t, xs[m], xs[m].previousEventHash), HashedFields(u, ys[n], ys[n].previousEventHash));
      SameHeadSameChain(h, t, xs[..m], u, ys[..n]);
      forall i | 0 <= i < m
        ensures SameHashed(HashedFields(t, xs[i], xs[i].previousEventHash), HashedFields(u, ys[i], ys[i].previousEventHash))
      {
        assert xs[..m][i] == xs[i] && ys[..n][i] == ys[i];
      }
    }
  }

  lemma VerifiedPrefix(h: HashFunction, t: string, xs: seq<Event>)
    requires Verified(h, t, xs) && xs != []
    ensures Verified(h, t, xs[..|xs| - 1])
    ensures HashBefore(xs[..|xs| - 1], |xs| - 1) == HashBefore(xs, |xs| - 1)
  {
    var ys := xs[..|xs| - 1];
    forall i | 0 <= i < |ys| ensures LinkAt(h, t, ys, i) {
      assert LinkAt(h, t, xs, i);
    }
  }

  // ---------------------------------------------------- duplicates and redelivery

  lemma {:induction false} RowOf(events: seq<Event>, k: nat) returns (i: nat)
    requires k < |events|
    ensures i < |Rows(events, events[k].companyId, events[k].traceId)|
    ensures Rows(events, events[k].companyId, events[k].traceId)[i] == events[k]
    decreases |events|
  {
    var n := |events| - 1;
    if k == n {
      i := |Rows(events[..n], events[k].companyId, events[k].traceId)|;
    } else {
      i := RowOf(events[..n], k);
    }
  }

  lemma {:induction false} FindHashFinds(events: seq<Event>, hash: string) returns (k: nat)
    requires FindHash(events, hash).Some?
    ensures k < |events| && events[k].eventHash == hash && FindHash(events, hash) == Some(events[k])
    decreases |events|
  {
    if events[0].eventHash == hash {
      k := 0;
    } else {
      k := FindHashFinds(events[1..], hash);
      k := k + 1;
    }
  }

  /** A stored event sits below its trace's head and carries the hash of its own content. */
  lemma StoredEventIsOld(h: HashFunction, s: State, k: nat)
    requires Inv(h, s) && k < |s.events|
    ensures var e := s.events[k];
      && e.traceId in s.traces && 1 <= e.sequence <= s.traces[e.traceId].sequenceHead
      && e.eventHash == h(HashedFields(e.traceId, e, e.previousEventHash))
  {
    var e := s.events[k];
    assert TraceOk(h, s, e.traceId);
    var i := RowOf(s.events, k);
    var rows := Rows(s.events, e.companyId, e.traceId);
    assert LinkAt(h, e.traceId, rows, i);
  }

  /** The replay branch on an existing event hash is never taken. */
  lemma DuplicateBranchIsDead(h: HashFunction, s: State, input: AppendInput)
    requires Faithful(h) && Inv(h, s) && Admission(s, input).None?
    ensures FindHash(s.events, NextHash(h, s, input)).None?
  {
    if FindHash(s.events, NextHash(h, s, input)).Some? {
      var k := FindHashFinds(s.events, NextHash(h, s, input));
      var e := s.events[k];
      StoredEventIsOld(h, s, k);
      assert SameHashed(HashedFields(e.traceId, e, e.previousEventHash),
                        Hashed(input.traceId, input.sequence, input.eventType, input.timestamp.value, input.payload,
                               input.provenanceRefs, s.traces[input.traceId].headHash));
    }
  }

  /** An append either stores exactly one new event at the end, or changes nothing. */
  lemma AppendAddsOneOrNothing(h: HashFunction, s: State, input: AppendInput)
    requires Faithful(h) && Inv(h, s)
    ensures var (s', r) := Append(h, s, input);
      && (r.Stored? ==> s'.events == s.events + [r.event] && r.event.sequence == input.sequence)
      && (r.Refused? ==> s' == s)
  {
    if Admission(s, input).None? {
      DuplicateBranchIsDead(h, s, input);
    }
  }

  // ------------------------------------------------------------ ingestion worker

  /** A stream message: no `event` field, an unreadable one, or an event. */
  datatype Body = Missing | Unreadable | Readable(input: AppendInput)

  datatype Message = Message(id: string, body: Body)

  datatype Counts = Counts(processed: nat, duplicates: nat, rejected: nat)

  function Handle(h: HashFunction, s: State, m: Message, c: Counts): (State, Counts) {
    match m.body
    case Missing => (s, c.(rejected := c.rejected + 1))
    case Unreadable => (s, c.(rejected := c.rejected + 1))
    case Readable(input) =>
      match Append(h, s, input)
      case (s', Stored(e)) => (s', if e.sequence == input.sequence then c.(processed := c.processed + 1) else c)
      case (s', Refused(OutOfOrder)) => (s', c.(duplicates := c.duplicates + 1))
      case (s', Refused(_)) => (s', c.(rejected := c.rejected + 1))
  }

  function HandleAll(h: HashFunction, s: State, ms: seq<Message>, c: Counts): (State, Counts)
    decreases |ms|
  {
    if ms == [] then (s, c)
    else
      var (s', c') := Handle(h, s, ms[0], c);
      HandleAll(h, s', ms[1..], c')
  }

  function MessageIds(ms: seq<Message>): seq<string> {
    seq(|ms|, i requires 0 <= i < |ms| => ms[i].id)
  }

  class TrajectoryIngestionWorker {
    const trajectory: TrajectoryService
    var acknowledged: seq<string>

    constructor (trajectory: TrajectoryService)
      ensures this.trajectory == trajectory && acknowledged == []
    {
      this.trajectory := trajectory;
      acknowledged := [];
    }

    method HandleMessage(m: Message, c: Counts) returns (c': Counts)
      modifies this`acknowledged, trajectory
      ensures (trajectory.Contents(), c') == Handle(trajectory.h, old(trajectory.Contents()), m, c)
      ensures acknowledged == old(acknowledged) + [m.id]
    {
      c' := c;
      match m.body {
        case Missing => c' := c.(rejected := c.rejected + 1);
        case Unreadable => c' := c.(rejected := c.rejected + 1);
        case Readable(input) =>
          var r := trajectory.AppendEvent(input);
          if r.Stored? {
            if r.event.sequence == input.sequence { c' := c.(processed := c.processed + 1); }
          } else if r.why == OutOfOrder {
            c' := c.(duplicates := c.duplicates + 1);
          } else {
            c' := c.(rejected := c.rejected + 1);
          }
      }
      acknowledged := acknowledged + [m.id];
    }

    /** One batch: every message is handled in order and acknowledged. */
    method ProcessBatch(ms: seq<Message>) returns (c: Counts)
      modifies this`acknowledged, trajectory
      ensures (trajectory.Contents(), c) == HandleAll(trajectory.h, old(trajectory.Contents()), ms, Counts(0, 0, 0))
      ensures acknowledged == old(acknowledged) + MessageIds(ms)
    {
      c := Counts(0, 0, 0);
      var i := 0;
      while i < |ms|
        invariant 0 <= i <= |ms|
        invariant HandleAll(trajectory.h, trajectory.Contents(), ms[i..], c)
               == HandleAll(trajectory.h, old(trajectory.Contents()), ms, Counts(0, 0, 0))
        invariant acknowledged == old(acknowledged) + MessageIds(ms[..i])
      {
        assert ms[i..][1..] == ms[i + 1..];
        c := HandleMessage(ms[i], c);
        assert MessageIds(ms[..i + 1]) == MessageIds(ms[..i]) + [ms[i].id];
        i := i + 1;
      }
      assert ms[..i] == ms;
    }
  }

  /** A batch counts every message once, and `processed` is exactly the events it added. */
  lemma {:induction false} BatchIsAccountedFor(h: HashFunction, s: State, ms: seq<Message>, c: Counts)
    requires Faithful(h) && Inv(h, s)
    ensures var (s', c') := HandleAll(h, s, ms, c);
      && Inv(h, s')
      && c'.processed + c'.duplicates + c'.rejected == c.processed + c.duplicates + c.rejected + |ms|
      && |s'.events| - |s.events| == c'.processed - c.processed
      && s.events <= s'.events
    decreases |ms|
  {
    if ms != [] {
      var (s1, c1) := Handle(h, s, ms[0], c);
      if ms[0].body.Readable? {
        AppendAddsOneOrNothing(h, s, ms[0].body.input);
        AppendKeepsInv(h, s, ms[0].body.input);
      }
      BatchIsAccountedFor(h, s1, ms[1..], c1);
    }
  }

  /** Redelivering an event that is already in the log changes nothing, and is refused. */
  lemma RedeliveryChangesNothing(h: HashFunction, s: State, k: nat, m: Message, c: Counts)
    requires Inv(h, s) && k < |s.events| && m.body.Readable?
    requires m.body.input.traceId == s.events[k].traceId && m.body.input.sequence == s.events[k].sequence
    ensures Handle(h, s, m, c).0 == s
    ensures Append(h, s, m.body.input).1.Refused?
    ensures var trace := s.traces[s.events[k].traceId];
      m.body.input.companyId == trace.companyId && m.body.input.agentId == trace.agentId ==>
        Handle(h, s, m, c).1 == if trace.status == ACTIVE then c.(duplicates := c.duplicates + 1) else c.(rejected := c.rejected + 1)
  {
    StoredEventIsOld(h, s, k);
  }

  // ------------------------------------------------------------- the real hash

  function Strings(xs: seq<string>): Json {
    JArr(seq(|xs|, i requires 0 <= i < |xs| => JStr(xs[i])))
  }

  function PreImage(x: Hashed): seq<Field> {
    [Field("traceId", JStr(x.traceId)), Field("sequence", JNum(N.Numeral(x.sequence))), Field("eventType", JStr(x.eventType)),
     Field("timestamp", JNum(N.Numeral(x.timestamp))), Field("payload", x.payload),
     Field("provenanceRefs", Strings(RefsOf(x.provenanceRefs))), Field("previousEventHash", JStr(x.previousEventHash))]
  }

  /** `computeEventHash`. */
  function EventHash(digest: Json -> string): HashFunction {
    x => Hash(digest, JObj(PreImage(x)))
  }

  lemma StringsInjective(xs: seq<string>, ys: seq<string>)
    requires Canon(Strings(xs)) == Canon(Strings(ys))
    ensures xs == ys
  {
    var a, b := Strings(xs).items, Strings(ys).items;
    assert CanonAll(a) == CanonAll(b);
    forall i | 0 <= i < |xs| ensures xs[i] == ys[i] {
      assert CanonAll(a)[i] == JStr(xs[i]) && CanonAll(b)[i] == JStr(ys[i]);
    }
  }

  /** The seven field names differ in a letter or in length, and none is `__proto__`. */
  lemma DistinctNames(fs: seq<Field>)
    requires |fs| == 7 && fs[0].key == "traceId" && fs[1].key == "sequence" && fs[2].key == "eventType"
    requires fs[3].key == "timestamp" && fs[4].key == "payload" && fs[5].key == "provenanceRefs" && fs[6].key == "previousEventHash"
    ensures DistinctKeys(fs) && forall i :: 0 <= i < |fs| ==> fs[i].key != PROTO
  {
    assert |fs[0].key| == 7 && |fs[1].key| == 8 && |fs[2].key| == 9 && |fs[3].key| == 9 && |fs[4].key| == 7
        && |fs[5].key| == 14 && |fs[6].key| == 17;
    assert fs[0].key[0] == 't' && fs[4].key[0] == 'p' && fs[2].key[0] == 'e' && fs[3].key[0] == 't';
    assert |PROTO| == 9 && PROTO[0] == '_';
  }

  /** With an injective digest, `computeEventHash` separates events that differ in any hashed field. */
  lemma EventHashIsFaithful(digest: Json -> string)
    requires Injective(digest)
    ensures Faithful(EventHash(digest))
  {
    forall x, y | EventHash(digest)(x) == EventHash(digest)(y) ensures SameHashed(x, y) {
      var fs, gs := PreImage(x), PreImage(y);
      DistinctNames(fs);
      RecordsAgree(fs, gs);
      FieldsSayAll(x, y);
    }
  }

  lemma FieldsSayAll(x: Hashed, y: Hashed)
    requires forall i :: 0 <= i < 7 ==> Canon(PreImage(x)[i].value) == Canon(PreImage(y)[i].value)
    ensures SameHashed(x, y)
  {
    var fs, gs := PreImage(x), PreImage(y);
    assert Canon(fs[0].value) == Canon(gs[0].value) && Canon(fs[1].value) == Canon(gs[1].value);
    assert Canon(fs[2].value) == Canon(gs[2].value) && Canon(fs[3].value) == Canon(gs[3].value);
    assert Canon(fs[4].value) == Canon(gs[4].value) && Canon(fs[5].value) == Canon(gs[5].value);
    assert Canon(fs[6].value) == Canon(gs[6].value);
    N.NumeralIsInjective(x.sequence, y.sequence);
    N.NumeralIsInjective(x.timestamp, y.timestamp);
    StringsInjective(RefsOf(x.provenanceRefs), RefsOf(y.provenanceRefs));
  }

  /** Some digest makes the event hash faithful and keeps it off the starting hash. */
  lemma HashHypothesesAreConsistent()
    ensures Faithful(EventHash(S.Spell)) && forall x :: EventHash(S.Spell)(x) != GENESIS
  {
    S.SpellIsInjective();
    EventHashIsFaithful(S.Spell);
    assert GENESIS[0] == 's';
  }

  // ------------------------------------------------------------- what each call answers

  /** Why an event is refused: the first of these that applies. */
  lemma AdmissionSaysWhy(s: State, input: AppendInput)
    ensures var why := Admission(s, input); var known := input.traceId in s.traces && s.traces[input.traceId].companyId == input.companyId;
      && (why == Some(NotFound) <==> !known)
      && (known ==> var trace := s.traces[input.traceId];
            && (why == Some(WrongAgent) <==> input.agentId != trace.agentId)
            && (input.agentId == trace.agentId ==>
                  && (why == Some(NotActive) <==> trace.status != ACTIVE)
                  && (trace.status == ACTIVE ==>
                        && (why == Some(OutOfOrder) <==> input.sequence != trace.sequenceHead + 1)
                        && (input.sequence == trace.sequenceHead + 1 ==>
                              var linked := input.previousEventHash.None? || input.previousEventHash == Some(trace.headHash);
                              && (why == Some(WrongPrevious) <==> !linked)
                              && (why == Some(BadTimestamp) <==> linked && input.timestamp.None?)
                              && (why.None? <==> linked && input.timestamp.Some?)))))
  {
  }

  /** What an append answers, and the row it stores: the content of the input, linked to the head. */
  lemma AppendAnswers(h: HashFunction, s: State, input: AppendInput)
    requires Faithful(h) && Inv(h, s)
    ensures var (s', r) := Append(h, s, input); var why := Admission(s, input);
      && Step(h, s, OpAppend(input)) == s'
      && (why.Some? ==> r == Refused(why.value))
      && (why.None? ==>
            var trace := s.traces[input.traceId];
            var hash := h(Hashed(input.traceId, input.sequence, input.eventType, input.timestamp.value, input.payload, input.provenanceRefs, trace.headHash));
            && (r == Refused(WrongHash) <==> input.eventHash.Some? && input.eventHash.value != hash)
            && (r.Refused? ==> r.why == WrongHash)
            && (r.Stored? ==>
                  && r.event.traceId == input.traceId && r.event.companyId == input.companyId && r.event.agentId == input.agentId
                  && r.event.sequence == input.sequence && r.event.eventType == input.eventType
                  && r.event.timestamp == input.timestamp.value && r.event.payload == input.payload
                  && r.event.provenanceRefs == input.provenanceRefs
                  && r.event.previousEventHash == trace.headHash && r.event.eventHash == hash
                  && s'.traces == s.traces[input.traceId := trace.(sequenceHead := input.sequence, headHash := hash)]))
  {
    if Admission(s, input).None? {
      DuplicateBranchIsDead(h, s, input);
    }
  }

  /** Traces start active and empty, for known agents and new ids only. */
  lemma CreateAnswers(h: HashFunction, s: State, companyId: string, agentId: string, agentKnown: bool, id: string)
    ensures var (s', r) := CreateTrace(s, companyId, agentId, agentKnown, id);
      && Step(h, s, OpCreate(companyId, agentId, agentKnown, id)) == s'
      && (r == Err(TENANT_ERROR) <==> !agentKnown) && (r == Err(CONFLICT) <==> agentKnown && id in s.traces)
      && (r.Err? ==> s' == s && r.error in {TENANT_ERROR, CONFLICT})
      && (r.Ok? ==> r.value == id && s'.events == s.events && s'.traces == s.traces[id := Trace(companyId, agentId, ACTIVE, 0, GENESIS)])
  {
  }

  /** Completion is the company's, and changes the status alone. */
  lemma CompleteAnswers(h: HashFunction, s: State, companyId: string, id: string)
    ensures var (s', r) := CompleteTrace(s, companyId, id); var known := id in s.traces && s.traces[id].companyId == companyId;
      && Step(h, s, OpComplete(companyId, id)) == s'
      && (r == Err(NOT_FOUND) <==> !known) && (r.Err? ==> r.error == NOT_FOUND && s' == s)
      && (r.Ok? ==> r.value == id && s'.events == s.events && s'.traces == s.traces[id := s.traces[id].(status := COMPLETED)])
  {
  }

  /** A message counts as processed if its event is stored, as a duplicate if it is out of order, and as rejected otherwise. */
  lemma MessageCountsAs(h: HashFunction, s: State, m: Message, c: Counts)
    requires Faithful(h) && Inv(h, s)
    ensures var c' := Handle(h, s, m, c).1;
      if m.body.Readable? && Append(h, s, m.body.input).1.Stored? then
        c'.processed == c.processed + 1 && c'.duplicates == c.duplicates && c'.rejected == c.rejected
      else if m.body.Readable? && Append(h, s, m.body.input).1 == Refused(OutOfOrder) then
        c'.processed == c.processed && c'.duplicates == c.duplicates + 1 && c'.rejected == c.rejected
      else c'.processed == c.processed && c'.duplicates == c.duplicates && c'.rejected == c.rejected + 1
  {
    if m.body.Readable? {
      AppendAddsOneOrNothing(h, s, m.body.input);
    }
  }
}
