/**
 * Registration of idempotent operations over a table with a unique key, as one atomic call
 * and split at its awaits: find, insert, re-read after a lost race.
 */
module Idempotency {
  import opened Wrappers

  datatype Key = Key(companyId: string, operationType: string, idempotencyKey: string)

  datatype Progress = IN_PROGRESS | COMPLETED | FAILED

  datatype Record = Record(requestHash: string, progress: Progress)

  type Table = map<Key, Record>

  datatype Outcome = NEW | REPLAY

  /** What a caller is told once a record for its key is there. */
  function Recognise(record: Record, hash: string): Result<Outcome> {
    if record.requestHash == hash then Ok(REPLAY) else Err(IDEMPOTENCY_CONFLICT)
  }

  function Register(t: Table, key: Key, hash: string): (Table, Result<Outcome>) {
    if key in t then (t, Recognise(t[key], hash))
    else (t[key := Record(hash, IN_PROGRESS)], Ok(NEW))
  }

  // ------------------------------------------------------------- interleaved

  type ClientId = nat

  datatype Client =
    | Finding(key: Key, hash: string)
    | Inserting(key: Key, hash: string)
    | ReReading(key: Key, hash: string)

  /** A finished call: who asked for what, and what it was told. */
  datatype Answer = Answer(key: Key, hash: string, result: Result<Outcome>)

  /** `firstAt` is bookkeeping of the proof: the position of each record's NEW answer in the log. */
  datatype System = System(table: Table, clients: map<ClientId, Client>, log: seq<Answer>, firstAt: map<Key, nat>)

  const START := System(map[], map[], [], map[])

  datatype Event =
    | Begin(c: ClientId, key: Key, hash: string)
    | Find(c: ClientId)
    | Insert(c: ClientId)
    | ReRead(c: ClientId)
    | SetProgress(key: Key, progress: Progress)

  predicate Enabled(s: System, e: Event) {
    match e
    case Begin(c, _, _) => c !in s.clients
    case Find(c) => c in s.clients && s.clients[c].Finding?
    case Insert(c) => c in s.clients && s.clients[c].Inserting?
    case ReRead(c) => c in s.clients && s.clients[c].ReReading?
    case SetProgress(key, _) => key in s.table
  }

  function Reply(s: System, c: ClientId, result: Result<Outcome>): System
    requires c in s.clients
  {
    s.(clients := s.clients - {c}, log := s.log + [Answer(s.clients[c].key, s.clients[c].hash, result)])
  }

  function Apply(s: System, e: Event): System
    requires Enabled(s, e)
  {
    match e
    case Begin(c, key, hash) => s.(clients := s.clients[c := Finding(key, hash)])
    case Find(c) =>
      var Finding(key, hash) := s.clients[c];
      if key in s.table then Reply(s, c, Recognise(s.table[key], hash))
      else s.(clients := s.clients[c := Inserting(key, hash)])
    case Insert(c) =>
      var Inserting(key, hash) := s.clients[c];
      if key in s.table then s.(clients := s.clients[c := ReReading(key, hash)])
      else
        Reply(s.(table := s.table[key := Record(hash, IN_PROGRESS)], firstAt := s.firstAt[key := |s.log|]), c, Ok(NEW))
    case ReRead(c) =>
      var ReReading(key, hash) := s.clients[c];
      if key in s.table then Reply(s, c, Recognise(s.table[key], hash))
      else Reply(s, c, Err(INTERNAL_ERROR))
    case SetProgress(key, progress) => s.(table := s.table[key := s.table[key].(progress := progress)])
  }

  ghost predicate Legal(s: System, events: seq<Event>)
    decreases |events|
  {
    events == [] || (Enabled(s, events[0]) && Legal(Apply(s, events[0]), events[1..]))
  }

  ghost function Run(s: System, events: seq<Event>): System
    requires Legal(s, events)
    decreases |events|
  {
    if events == [] then s else Run(Apply(s, events[0]), events[1..])
  }

  /** The answer for `firstAt[key]` is the one NEW for its key; everything else repeats it. */
  ghost predicate Inv(s: System) {
    && s.firstAt.Keys == s.table.Keys
    && (forall key :: key in s.table ==>
          s.firstAt[key] < |s.log| && s.log[s.firstAt[key]] == Answer(key, s.table[key].requestHash, Ok(NEW)))
    && (forall j :: 0 <= j < |s.log| ==> AnswerOk(s, s.log[j], j))
    && (forall c :: c in s.clients && s.clients[c].ReReading? ==> s.clients[c].key in s.table)
  }

  ghost predicate AnswerOk(s: System, a: Answer, j: nat)
    requires s.firstAt.Keys == s.table.Keys
  {
    && a.result != Err(INTERNAL_ERROR)
    && (a.result.Ok? ==> a.key in s.table && a.hash == s.table[a.key].requestHash)
    && (a.result == Ok(NEW) ==> s.firstAt[a.key] == j)
    && (a.result == Ok(REPLAY) ==> s.firstAt[a.key] < j)
  }

  lemma ApplyKeepsInv(s: System, e: Event)
    requires Inv(s) && Enabled(s, e)
    ensures Inv(Apply(s, e))
  {
    var s' := Apply(s, e);
    forall j | 0 <= j < |s'.log| ensures AnswerOk(s', s'.log[j], j) {
      if j < |s.log| {
        assert AnswerOk(s, s.log[j], j);
      }
    }
  }

  lemma {:induction false} RunKeepsInv(s: System, events: seq<Event>)
    requires Inv(s) && Legal(s, events)
    ensures Inv(Run(s, events))
    decreases |events|
  {
    if events != [] {
      ApplyKeepsInv(s, events[0]);
      RunKeepsInv(Apply(s, events[0]), events[1..]);
    }
  }

  /**
   * Any number of clients, interleaved at their awaits: per key NEW is answered at most
   * once ever, REPLAY only after it and for the same request, and no call is left without
   * a record to compare with.
   */
  lemma {:induction false} RegisterIsNewAtMostOnce(events: seq<Event>)
    requires Legal(START, events)
    ensures var log := Run(START, events).log;
      && (forall i, j :: 0 <= i < j < |log| && log[i].result == Ok(NEW) && log[j].result == Ok(NEW) ==> log[i].key != log[j].key)
      && (forall j :: 0 <= j < |log| && log[j].result == Ok(REPLAY) ==>
            exists i :: 0 <= i < j && log[i].key == log[j].key && log[i].hash == log[j].hash && log[i].result == Ok(NEW))
      && (forall j :: 0 <= j < |log| ==> log[j].result != Err(INTERNAL_ERROR))
  {
    RunKeepsInv(START, events);
    var s := Run(START, events);
    assert forall j :: 0 <= j < |s.log| ==> AnswerOk(s, s.log[j], j);
    forall j | 0 <= j < |s.log| && s.log[j].result == Ok(REPLAY)
      ensures exists i :: 0 <= i < j && s.log[i].key == s.log[j].key && s.log[i].hash == s.log[j].hash && s.log[i].result == Ok(NEW)
    {
      var i := s.firstAt[s.log[j].key];
      assert s.log[i].key == s.log[j].key;
    }
  }

  // ------------------------------------------------------------------ the atomic answer

  /** A new key is stored with its hash and answered NEW; a stored one is answered REPLAY or refused by its hash, and stays. */
  lemma RegisterAnswers(t: Table, key: Key, hash: string)
    ensures var (t', r) := Register(t, key, hash);
      && (r == Ok(NEW) <==> key !in t)
      && (r == Ok(REPLAY) <==> key in t && t[key].requestHash == hash)
      && (r == Err(IDEMPOTENCY_CONFLICT) <==> key in t && t[key].requestHash != hash)
      && (r.Err? ==> r.error == IDEMPOTENCY_CONFLICT)
      && (key in t ==> t' == t)
      && (key !in t ==> key in t' && t'[key] == Record(hash, IN_PROGRESS) && t' - {key} == t)
  {
    assert t[key := Record(hash, IN_PROGRESS)] - {key} == t - {key};
    assert key !in t ==> t - {key} == t;
  }

  // -------------------------------------------------------------- a call on its own

  lemma {:induction false} OneMore(s: System, events: seq<Event>, e: Event)
    requires Legal(s, events) && Enabled(Run(s, events), e)
    ensures Legal(s, events + [e]) && Run(s, events + [e]) == Apply(Run(s, events), e)
    decreases |events|
  {
    if events == [] {
      assert [e][1..] == [];
    } else {
      OneMore(Apply(s, events[0]), events[1..], e);
      assert (events + [e])[1..] == events[1..] + [e];
    }
  }

  /** A call whose events nothing interrupts is one whole registration, and is answered as it. */
  lemma AloneIsRegister(t: Table, key: Key, hash: string) returns (events: seq<Event>)
    ensures Legal(System(t, map[], [], map[]), events)
    ensures var s := Run(System(t, map[], [], map[]), events);
      s.table == Register(t, key, hash).0 && s.clients == map[] && s.log == [Answer(key, hash, Register(t, key, hash).1)]
  {
    var start := System(t, map[], [], map[]);
    OneMore(start, [], Begin(0, key, hash));
    events := [] + [Begin(0, key, hash)];
    OneMore(start, events, Find(0));
    events := events + [Find(0)];
    if key !in t {
      OneMore(start, events, Insert(0));
      events := events + [Insert(0)];
    }
    assert Run(start, events).clients == map[];
  }

  /** A call that lost the race between its find and its insert is answered by the record of the winner. */
  lemma LoserIsAnsweredByWinner(s: System, c: ClientId)
    requires c in s.clients && s.clients[c].Inserting? && s.clients[c].key in s.table
    ensures var s1 := Apply(s, Insert(c)); var k := s.clients[c];
      && Enabled(s1, ReRead(c)) && s1.table == s.table && s1.log == s.log
      && Apply(s1, ReRead(c)).log == s.log + [Answer(k.key, k.hash, Recognise(s.table[k.key], k.hash))]
      && Apply(s1, ReRead(c)).table == s.table
  {
  }
}
