/**
 * A trajectory append split at its awaits, with any number of clients interleaved. The
 * trace is read without a lock; what keeps the chain whole is the unique index on trace and
 * sequence, at which an insert waits for uncommitted rows and fails on committed ones, and
 * the rollback that follows a failure.
 */
module TrajectoryConcurrency {
  import opened Wrappers
  import opened Trajectory
  import T = Trajectory

  type ClientId = nat

  /** Past its read a client carries the row it computed from what it read; in `Updating` that row is written and uncommitted. */
  datatype Client =
    | Reading(input: AppendInput)
    | Looking(input: AppendInput, row: Event)
    | Inserting(input: AppendInput, row: Event)
    | Updating(input: AppendInput, row: Event)

  /** `db` is what is committed. */
  datatype System = System(db: State, clients: map<ClientId, Client>)

  const START := System(T.EMPTY, map[])

  datatype Move =
    | Create(companyId: string, agentId: string, agentKnown: bool, id: string)
    | Complete(companyId: string, id: string)
    | Begin(c: ClientId, input: AppendInput)
    | Read(c: ClientId)
    | Look(c: ClientId)
    | Insert(c: ClientId)
    | Commit(c: ClientId)
    | Abort(c: ClientId)

  /** The two rows collide in a unique index. */
  predicate Collide(a: Event, b: Event) {
    (a.traceId == b.traceId && a.sequence == b.sequence) || a.eventHash == b.eventHash
  }

  /** An uncommitted row of another client holds the insert up. */
  predicate Waits(s: System, c: ClientId)
    requires c in s.clients && s.clients[c].Inserting?
  {
    exists d :: d in s.clients && s.clients[d].Updating? && Collide(s.clients[d].row, s.clients[c].row)
  }

  predicate Taken(db: State, row: Event) {
    exists i :: 0 <= i < |db.events| && Collide(db.events[i], row)
  }

  predicate Enabled(s: System, m: Move) {
    match m
    case Create(_, _, _, _) => true
    case Complete(_, _) => true
    case Begin(c, _) => c !in s.clients
    case Read(c) => c in s.clients && s.clients[c].Reading?
    case Look(c) => c in s.clients && s.clients[c].Looking?
    case Insert(c) => c in s.clients && s.clients[c].Inserting? && !Waits(s, c)
    case Commit(c) => c in s.clients && s.clients[c].Updating?
    case Abort(c) => c in s.clients
  }

  function Leave(s: System, c: ClientId): System {
    s.(clients := s.clients - {c})
  }

  predicate ReadAccepts(h: HashFunction, db: State, input: AppendInput) {
    Admission(db, input).None? && (input.eventHash.Some? ==> input.eventHash.value == NextHash(h, db, input))
  }

  /** The head is moved to the row whatever the trace row holds by then. */
  function Write(db: State, row: Event): State
    requires row.traceId in db.traces
  {
    State(db.traces[row.traceId := db.traces[row.traceId].(sequenceHead := row.sequence, headHash := row.eventHash)],
          db.events + [row])
  }

  function Apply(h: HashFunction, s: System, m: Move): System
    requires Enabled(s, m)
  {
    match m
    case Create(companyId, agentId, agentKnown, id) => s.(db := CreateTrace(s.db, companyId, agentId, agentKnown, id).0)
    case Complete(companyId, id) => s.(db := CompleteTrace(s.db, companyId, id).0)
    case Begin(c, input) => s.(clients := s.clients[c := Reading(input)])
    case Read(c) =>
      var input := s.clients[c].input;
      if ReadAccepts(h, s.db, input) then s.(clients := s.clients[c := Looking(input, NextEvent(h, s.db, input))])
      else Leave(s, c)
    case Look(c) =>
      var Looking(input, row) := s.clients[c];
      if FindHash(s.db.events, row.eventHash).Some? then Leave(s, c)
      else s.(clients := s.clients[c := Inserting(input, row)])
    case Insert(c) =>
      var Inserting(input, row) := s.clients[c];
      if Taken(s.db, row) then Leave(s, c) else s.(clients := s.clients[c := Updating(input, row)])
    case Commit(c) =>
      var row := s.clients[c].row;
      if row.traceId in s.db.traces then Leave(s, c).(db := Write(s.db, row)) else Leave(s, c)
    case Abort(c) => Leave(s, c)
  }

  ghost predicate Legal(h: HashFunction, s: System, moves: seq<Move>)
    decreases |moves|
  {
    moves == [] || (Enabled(s, moves[0]) && Legal(h, Apply(h, s, moves[0]), moves[1..]))
  }

  ghost function Run(h: HashFunction, s: System, moves: seq<Move>): System
    requires Legal(h, s, moves)
    decreases |moves|
  {
    if moves == [] then s else Run(h, Apply(h, s, moves[0]), moves[1..])
  }

  // ---------------------------------------------------------------------- invariant

  ghost function RowsOf(db: State, id: string): seq<Event>
    requires id in db.traces
  {
    Rows(db.events, db.traces[id].companyId, id)
  }

  /** The row is one that an append of the input computes on top of a chain with head hash `previous`. */
  predicate RowOfInput(h: HashFunction, row: Event, input: AppendInput) {
    && input.timestamp.Some?
    && row == Event(input.traceId, input.companyId, input.agentId, input.sequence, input.eventType, input.timestamp.value,
                    input.payload, input.provenanceRefs, row.previousEventHash, row.eventHash)
    && row.eventHash == h(HashedFields(row.traceId, row, row.previousEventHash))
    && (input.previousEventHash.Some? ==> input.previousEventHash.value == row.previousEventHash)
    && (input.eventHash.Some? ==> input.eventHash.value == row.eventHash)
  }

  /** The row continues the chain as it stood at some earlier time. */
  ghost predicate Continues(h: HashFunction, db: State, row: Event, input: AppendInput) {
    && RowOfInput(h, row, input)
    && row.traceId in db.traces
    && row.companyId == db.traces[row.traceId].companyId && row.agentId == db.traces[row.traceId].agentId
    && var rows := RowsOf(db, row.traceId);
       1 <= row.sequence <= |rows| + 1 && row.previousEventHash == HashBefore(rows, row.sequence - 1)
  }

  /** A written row continues the chain as it stands, and nothing committed collides with it. */
  ghost predicate IsNext(db: State, row: Event) {
    row.traceId in db.traces && row.sequence == |RowsOf(db, row.traceId)| + 1 && !Taken(db, row)
  }

  ghost predicate ClientOk(h: HashFunction, s: System, c: ClientId)
    requires c in s.clients
  {
    var client := s.clients[c];
    && (!client.Reading? ==> Continues(h, s.db, client.row, client.input))
    && (client.Updating? ==> IsNext(s.db, client.row))
  }

  ghost predicate Exclusive(s: System) {
    forall c, d :: c in s.clients && d in s.clients && c != d && s.clients[c].Updating? && s.clients[d].Updating? ==>
      !Collide(s.clients[c].row, s.clients[d].row)
  }

  ghost predicate Inv(h: HashFunction, s: System) {
    T.Inv(h, s.db) && (forall c :: c in s.clients ==> ClientOk(h, s, c)) && Exclusive(s)
  }

  /** What is read makes a row that continues the chain. */
  lemma ReadContinues(h: HashFunction, db: State, input: AppendInput)
    requires T.Inv(h, db) && ReadAccepts(h, db, input)
    ensures Continues(h, db, NextEvent(h, db, input), input)
  {
    assert TraceOk(h, db, input.traceId);
  }

  /** A row that collides with nothing committed is the next one: every earlier sequence is taken. */
  lemma FreeRowIsNext(h: HashFunction, db: State, row: Event, input: AppendInput)
    requires T.Inv(h, db) && Continues(h, db, row, input) && !Taken(db, row)
    ensures IsNext(db, row)
  {
    var rows := RowsOf(db, row.traceId);
    assert TraceOk(h, db, row.traceId);
    if row.sequence <= |rows| {
      assert LinkAt(h, row.traceId, rows, row.sequence - 1);
      var i := InTable(db.events, db.traces[row.traceId].companyId, row.traceId, row.sequence - 1);
      assert Collide(db.events[i], row);
    }
  }

  lemma {:induction false} InTable(events: seq<Event>, companyId: string, traceId: string, k: nat) returns (i: nat)
    requires k < |Rows(events, companyId, traceId)|
    ensures i < |events| && events[i] == Rows(events, companyId, traceId)[k] && events[i].traceId == traceId
    decreases |events|
  {
    var n := |events| - 1;
    if k < |Rows(events[..n], companyId, traceId)| {
      i := InTable(events[..n], companyId, traceId, k);
    } else {
      i := n;
    }
  }

  /** Creating and completing traces leaves every client as it was. */
  lemma TraceMoveKeepsClient(h: HashFunction, s: System, s': System, c: ClientId)
    requires c in s.clients && ClientOk(h, s, c) && s'.clients == s.clients && s'.db.events == s.db.events
    requires forall id :: id in s.db.traces ==> id in s'.db.traces && s'.db.traces[id] == s.db.traces[id].(status := s'.db.traces[id].status)
    ensures ClientOk(h, s', c)
  {
  }

  /** A commit to another trace, or a row not yet written, cannot disturb a client. */
  lemma WriteKeepsClient(h: HashFunction, s: System, row: Event, c: ClientId, s': System)
    requires Inv(h, s) && c in s.clients && c in s'.clients && s'.clients[c] == s.clients[c]
    requires IsNext(s.db, row) && row.companyId == s.db.traces[row.traceId].companyId && s'.db == Write(s.db, row)
    requires s.clients[c].Updating? ==> !Collide(s.clients[c].row, row)
    ensures ClientOk(h, s', c)
  {
    assert ClientOk(h, s, c);
    var client := s.clients[c];
    if !client.Reading? {
      RowsOfAppend(s.db.events, row, s.db.traces[client.row.traceId].companyId, client.row.traceId);
      WriteKeepsContinues(h, s.db, row, client.row, client.input);
    }
  }

  lemma WriteKeepsContinues(h: HashFunction, db: State, row: Event, mine: Event, input: AppendInput)
    requires Continues(h, db, mine, input) && IsNext(db, row)
    ensures Continues(h, Write(db, row), mine, input)
  {
    RowsOfAppend(db.events, row, db.traces[mine.traceId].companyId, mine.traceId);
    var rows, rows' := RowsOf(db, mine.traceId), RowsOf(Write(db, row), mine.traceId);
    assert rows' == rows || rows' == rows + [row];
    assert HashBefore(rows', mine.sequence - 1) == HashBefore(rows, mine.sequence - 1);
  }

  lemma WriteKeepsTraces(h: HashFunction, db: State, row: Event, input: AppendInput)
    requires T.Inv(h, db) && Continues(h, db, row, input) && IsNext(db, row)
    ensures T.Inv(h, Write(db, row))
  {
    var db' := Write(db, row);
    forall id | id in db'.traces ensures TraceOk(h, db', id) {
      assert TraceOk(h, db, id);
      if id == row.traceId {
        OwnTraceStaysOk(h, db, db', id, row);
      } else {
        OtherTraceStaysOk(h, db, db', id, row);
      }
    }
  }

  lemma CommitKeepsInv(h: HashFunction, s: System, c: ClientId)
    requires Inv(h, s) && Enabled(s, Commit(c))
    ensures Inv(h, Apply(h, s, Commit(c)))
  {
    var s', row := Apply(h, s, Commit(c)), s.clients[c].row;
    assert ClientOk(h, s, c);
    WriteKeepsTraces(h, s.db, row, s.clients[c].input);
    forall d | d in s'.clients ensures ClientOk(h, s', d) {
      WriteKeepsClient(h, s, row, d, s');
    }
  }

  lemma ReadKeepsInv(h: HashFunction, s: System, c: ClientId)
    requires Inv(h, s) && Enabled(s, Read(c))
    ensures Inv(h, Apply(h, s, Read(c)))
  {
    var s', input := Apply(h, s, Read(c)), s.clients[c].input;
    if ReadAccepts(h, s.db, input) {
      ReadContinues(h, s.db, input);
    }
    forall d | d in s'.clients ensures ClientOk(h, s', d) {
      assert ClientOk(h, s, d);
    }
  }

  lemma InsertKeepsInv(h: HashFunction, s: System, c: ClientId)
    requires Inv(h, s) && Enabled(s, Insert(c))
    ensures Inv(h, Apply(h, s, Insert(c)))
  {
    var s' := Apply(h, s, Insert(c));
    assert ClientOk(h, s, c);
    if !Taken(s.db, s.clients[c].row) {
      FreeRowIsNext(h, s.db, s.clients[c].row, s.clients[c].input);
    }
    forall d | d in s'.clients ensures ClientOk(h, s', d) {
      assert ClientOk(h, s, d);
    }
  }

  lemma CreateKeepsInv(h: HashFunction, s: System, companyId: string, agentId: string, agentKnown: bool, id: string)
    requires Inv(h, s)
    ensures Inv(h, Apply(h, s, Create(companyId, agentId, agentKnown, id)))
  {
    var s' := Apply(h, s, Create(companyId, agentId, agentKnown, id));
    T.StepKeepsInv(h, s.db, OpCreate(companyId, agentId, agentKnown, id));
    forall c | c in s'.clients ensures ClientOk(h, s', c) {
      TraceMoveKeepsClient(h, s, s', c);
    }
  }

  lemma CompleteKeepsInv(h: HashFunction, s: System, companyId: string, id: string)
    requires Inv(h, s)
    ensures Inv(h, Apply(h, s, Complete(companyId, id)))
  {
    var s' := Apply(h, s, Complete(companyId, id));
    T.StepKeepsInv(h, s.db, OpComplete(companyId, id));
    forall c | c in s'.clients ensures ClientOk(h, s', c) {
      TraceMoveKeepsClient(h, s, s', c);
    }
  }

  lemma LookKeepsInv(h: HashFunction, s: System, c: ClientId)
    requires Inv(h, s) && Enabled(s, Look(c))
    ensures Inv(h, Apply(h, s, Look(c)))
  {
    var s' := Apply(h, s, Look(c));
    forall d | d in s'.clients ensures ClientOk(h, s', d) {
      assert ClientOk(h, s, d);
    }
  }

  lemma ApplyKeepsInv(h: HashFunction, s: System, m: Move)
    requires Inv(h, s) && Enabled(s, m)
    ensures Inv(h, Apply(h, s, m))
  {
    match m
    case Create(companyId, agentId, agentKnown, id) => CreateKeepsInv(h, s, companyId, agentId, agentKnown, id);
    case Complete(companyId, id) => CompleteKeepsInv(h, s, companyId, id);
    case Read(c) => ReadKeepsInv(h, s, c);
    case Look(c) => LookKeepsInv(h, s, c);
    case Insert(c) => InsertKeepsInv(h, s, c);
    case Commit(c) => CommitKeepsInv(h, s, c);
    case _ =>
      var s' := Apply(h, s, m);
      assert forall c :: c in s.clients ==> ClientOk(h, s, c);
  }

  lemma {:induction false} RunKeepsInv(h: HashFunction, s: System, moves: seq<Move>)
    requires Inv(h, s) && Legal(h, s, moves)
    ensures Inv(h, Run(h, s, moves))
    decreases |moves|
  {
    if moves != [] {
      ApplyKeepsInv(h, s, moves[0]);
      RunKeepsInv(h, Apply(h, s, moves[0]), moves[1..]);
    }
  }

  /**
   * In every interleaving of creations, completions, appends and rollbacks, stopped
   * anywhere, every trace verifies, its head counts its events and holds the last hash.
   */
  lemma {:induction false} EveryTraceVerifiesInterleaved(h: HashFunction, moves: seq<Move>, id: string)
    requires Legal(h, START, moves) && id in Run(h, START, moves).db.traces
    ensures var db := Run(h, START, moves).db; var events := EventsOf(db, db.traces[id].companyId, id);
      && Verified(h, id, events)
      && db.traces[id].sequenceHead == |events|
      && db.traces[id].headHash == (if events == [] then GENESIS else events[|events| - 1].eventHash)
  {
    RunKeepsInv(h, START, moves);
    SoundTraceVerifies(h, Run(h, START, moves).db, id);
  }

  // --------------------------------------------------------------------- refinement

  lemma FreeHashIsNotFound(db: State, row: Event)
    requires !Taken(db, row)
    ensures FindHash(db.events, row.eventHash).None?
  {
    if FindHash(db.events, row.eventHash).Some? {
      var k := FindHashFinds(db.events, row.eventHash);
      assert Collide(db.events[k], row);
    }
  }

  /**
   * On what is committed, a move is one whole operation or nothing, except that a commit is
   * the append of its input if and only if the trace is still active then.
   */
  lemma MoveRefinesTrajectory(h: HashFunction, s: System, m: Move)
    requires Inv(h, s) && Enabled(s, m)
    ensures var db' := Apply(h, s, m).db;
      match m
      case Create(companyId, agentId, agentKnown, id) => db' == T.Step(h, s.db, OpCreate(companyId, agentId, agentKnown, id))
      case Complete(companyId, id) => db' == T.Step(h, s.db, OpComplete(companyId, id))
      case Commit(c) =>
        var Updating(input, row) := s.clients[c];
        && row.traceId in s.db.traces && db'.events == s.db.events + [row]
        && (db' == T.Step(h, s.db, OpAppend(input)) <==> s.db.traces[row.traceId].status == ACTIVE)
      case _ => db' == s.db
  {
    if m.Commit? {
      assert ClientOk(h, s, m.c);
      CommitIsAppendIffActive(h, s.db, s.clients[m.c].row, s.clients[m.c].input);
    }
  }

  lemma CommitIsAppendIffActive(h: HashFunction, db: State, row: Event, input: AppendInput)
    requires T.Inv(h, db) && Continues(h, db, row, input) && IsNext(db, row)
    ensures Write(db, row) == Append(h, db, input).0 <==> db.traces[row.traceId].status == ACTIVE
  {
    assert TraceOk(h, db, row.traceId);
    if db.traces[row.traceId].status == ACTIVE {
      assert Admission(db, input).None?;
      assert NextEvent(h, db, input) == row;
      FreeHashIsNotFound(db, row);
    } else {
      assert Append(h, db, input).0 == db;
      assert |Write(db, row).events| == |db.events| + 1;
    }
  }

  // ------------------------------------------------------ an append after completion

  lemma {:induction false} OneMore(h: HashFunction, s: System, moves: seq<Move>, m: Move)
    requires Legal(h, s, moves) && Enabled(Run(h, s, moves), m)
    ensures Legal(h, s, moves + [m]) && Run(h, s, moves + [m]) == Apply(h, Run(h, s, moves), m)
    decreases |moves|
  {
    if moves == [] {
      assert [m][1..] == [];
    } else {
      OneMore(h, Apply(h, s, moves[0]), moves[1..], m);
      assert (moves + [m])[1..] == moves[1..] + [m];
    }
  }

  /** The next row of a sound trace collides with nothing. */
  lemma NextRowIsFree(h: HashFunction, db: State, input: AppendInput)
    requires Faithful(h) && T.Inv(h, db) && Admission(db, input).None?
    ensures !Taken(db, NextEvent(h, db, input)) && FindHash(db.events, NextHash(h, db, input)).None?
  {
    var row := NextEvent(h, db, input);
    DuplicateBranchIsDead(h, db, input);
    forall i | 0 <= i < |db.events| ensures !Collide(db.events[i], row) {
      StoredEventIsOld(h, db, i);
      if db.events[i].eventHash == row.eventHash {
        HashIsFound(db.events, i);
      }
    }
  }

  lemma {:induction false} HashIsFound(events: seq<Event>, i: nat)
    requires i < |events|
    ensures FindHash(events, events[i].eventHash).Some?
    decreases |events|
  {
    if i > 0 && events[0].eventHash != events[i].eventHash {
      HashIsFound(events[1..], i - 1);
    }
  }

  /** A client reads an active trace, the trace is completed, and the client comes to its insert. */
  lemma CompletedAfterRead(h: HashFunction, db: State, input: AppendInput) returns (moves: seq<Move>)
    requires ReadAccepts(h, db, input) && FindHash(db.events, NextHash(h, db, input)).None?
    ensures Legal(h, System(db, map[]), moves)
    ensures Run(h, System(db, map[]), moves) ==
      System(CompleteTrace(db, input.companyId, input.traceId).0, map[0 := Inserting(input, NextEvent(h, db, input))])
  {
    var s := System(db, map[]);
    moves := [];
    OneMore(h, s, moves, Begin(0, input));
    moves := moves + [Begin(0, input)];
    OneMore(h, s, moves, Read(0));
    moves := moves + [Read(0)];
    OneMore(h, s, moves, Complete(input.companyId, input.traceId));
    moves := moves + [Complete(input.companyId, input.traceId)];
    OneMore(h, s, moves, Look(0));
    moves := moves + [Look(0)];
  }

  /** From every sound state, every event that would be accepted can also be stored after its trace was completed. */
  lemma AppendCanFollowCompletion(h: HashFunction, db: State, input: AppendInput) returns (moves: seq<Move>)
    requires Faithful(h) && T.Inv(h, db) && ReadAccepts(h, db, input)
    ensures Legal(h, System(db, map[]), moves)
    ensures var db' := Run(h, System(db, map[]), moves).db;
      && db'.events == db.events + [NextEvent(h, db, input)]
      && input.traceId in db'.traces && db'.traces[input.traceId].status == COMPLETED
  {
    var s := System(db, map[]);
    var row := NextEvent(h, db, input);
    NextRowIsFree(h, db, input);
    moves := CompletedAfterRead(h, db, input);
    OneMore(h, s, moves, Insert(0));
    moves := moves + [Insert(0)];
    OneMore(h, s, moves, Commit(0));
    moves := moves + [Commit(0)];
  }

  // -------------------------------------------------------------- a call on its own

  /** From every sound state, a call whose moves nothing interrupts is one whole append. */
  lemma AloneIsAppend(h: HashFunction, db: State, input: AppendInput) returns (moves: seq<Move>)
    requires Faithful(h) && T.Inv(h, db)
    ensures Legal(h, System(db, map[]), moves)
    ensures Run(h, System(db, map[]), moves) == System(Append(h, db, input).0, map[])
  {
    var start := System(db, map[]);
    OneMore(h, start, [], Begin(0, input));
    moves := [] + [Begin(0, input)];
    OneMore(h, start, moves, Read(0));
    moves := moves + [Read(0)];
    if ReadAccepts(h, db, input) {
      moves := AloneFromLook(h, db, input, start, moves);
    } else {
      assert Run(h, start, moves).clients == map[];
    }
  }

  lemma AloneFromLook(h: HashFunction, db: State, input: AppendInput, start: System, before: seq<Move>) returns (moves: seq<Move>)
    requires Faithful(h) && T.Inv(h, db) && ReadAccepts(h, db, input) && Legal(h, start, before)
    requires Run(h, start, before) == System(db, map[0 := Looking(input, NextEvent(h, db, input))])
    ensures Legal(h, start, moves) && Run(h, start, moves) == System(Append(h, db, input).0, map[])
  {
    NextRowIsFree(h, db, input);
    OneMore(h, start, before, Look(0));
    moves := before + [Look(0)];
    OneMore(h, start, moves, Insert(0));
    moves := moves + [Insert(0)];
    OneMore(h, start, moves, Commit(0));
    moves := moves + [Commit(0)];
    assert Run(h, start, moves).clients == map[];
  }
}
