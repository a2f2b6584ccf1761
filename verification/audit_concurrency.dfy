/**
 * An audit append split at its awaits, with any number of clients interleaved. The head of
 * the chain is read without a lock, and only the event hash is unique, so another append
 * can insert between the read of a client and its own insert. The table is kept in order of
 * creation time, and a new row lands wherever its time puts it.
 *
 * The main theorem says what that costs: the log is one that appends made one at a time
 * could have written if and only if no append was overtaken and none landed before a row of
 * its entity.
 */
module AuditConcurrency {
  import opened Wrappers
  import opened Audit
  import opened JsonCanonical
  import A = Audit
  import S = SpelledJson

  type ClientId = nat

  /** `seen` is bookkeeping of the proof: how many rows the entity had when its head was read. */
  datatype Client =
    | Reading(input: Input)
    | Searching(input: Input, previous: string, seen: nat)
    | Probing(input: Input, previous: string, seen: nat)
    | Creating(input: Input, previous: string, seen: nat)

  datatype System = System(events: seq<AuditEvent>, clients: map<ClientId, Client>)

  const START := System([], map[])

  datatype Move =
    | Begin(c: ClientId, input: Input)
    | Read(c: ClientId)
    | Search(c: ClientId)
    | Probe(c: ClientId)
    | Create(c: ClientId, at: nat)
    | Abort(c: ClientId)

  predicate Enabled(s: System, m: Move) {
    match m
    case Begin(c, _) => c !in s.clients
    case Read(c) => c in s.clients && s.clients[c].Reading?
    case Search(c) => c in s.clients && s.clients[c].Searching?
    case Probe(c) => c in s.clients && s.clients[c].Probing?
    case Create(c, at) => c in s.clients && s.clients[c].Creating? && at <= |s.events|
    case Abort(c) => c in s.clients
  }

  function Leave(s: System, c: ClientId): System {
    s.(clients := s.clients - {c})
  }

  function Put<T>(xs: seq<T>, at: nat, x: T): seq<T>
    requires at <= |xs|
  {
    xs[..at] + [x] + xs[at..]
  }

  /** A lookup that finds a row ends the call with it; an insert that meets its own hash fails and rolls back. */
  function Apply(h: Hashes, s: System, m: Move): System
    requires Enabled(s, m)
  {
    match m
    case Begin(c, input) => s.(clients := s.clients[c := Reading(input)])
    case Read(c) =>
      var input := s.clients[c].input;
      var rows := Rows(s.events, input.entity);
      s.(clients := s.clients[c := Searching(input, HashBefore(rows, |rows|), |rows|)])
    case Search(c) =>
      var Searching(input, previous, seen) := s.clients[c];
      if FindRepeat(Rows(s.events, input.entity), input.eventType, h.fingerprint(input)).Some? then Leave(s, c)
      else s.(clients := s.clients[c := Probing(input, previous, seen)])
    case Probe(c) =>
      var Probing(input, previous, seen) := s.clients[c];
      if FindHash(s.events, LinkedEvent(h, input, previous).eventHash).Some? then Leave(s, c)
      else s.(clients := s.clients[c := Creating(input, previous, seen)])
    case Create(c, at) =>
      if Inserts(h, s, m) then Leave(s, c).(events := Put(s.events, at, NewRow(h, s, c))) else Leave(s, c)
    case Abort(c) => Leave(s, c)
  }

  function NewRow(h: Hashes, s: System, c: ClientId): AuditEvent
    requires c in s.clients && s.clients[c].Creating?
  {
    LinkedEvent(h, s.clients[c].input, s.clients[c].previous)
  }

  /** The move adds a row: the event hash is not taken. */
  predicate Inserts(h: Hashes, s: System, m: Move)
    requires Enabled(s, m)
  {
    m.Create? && FindHash(s.events, NewRow(h, s, m.c).eventHash).None?
  }

  ghost predicate Legal(h: Hashes, s: System, moves: seq<Move>)
    decreases |moves|
  {
    moves == [] || (Enabled(s, moves[0]) && Legal(h, Apply(h, s, moves[0]), moves[1..]))
  }

  ghost function Run(h: Hashes, s: System, moves: seq<Move>): System
    requires Legal(h, s, moves)
    decreases |moves|
  {
    if moves == [] then s else Run(h, Apply(h, s, moves[0]), moves[1..])
  }

  // ------------------------------------------------------- overtaken and backdated appends

  /** A row of the entity is added by a client that read the head before another row of it was added. */
  predicate Overtakes(h: Hashes, s: System, m: Move, entity: Entity)
    requires Enabled(s, m)
  {
    && Inserts(h, s, m) && s.clients[m.c].input.entity == entity
    && s.clients[m.c].seen < |Rows(s.events, entity)|
  }

  /** A row of the entity is added with a creation time that puts it before another row of it. */
  predicate Backdates(h: Hashes, s: System, m: Move, entity: Entity)
    requires Enabled(s, m)
  {
    && Inserts(h, s, m) && s.clients[m.c].input.entity == entity
    && Rows(s.events[m.at..], entity) != []
  }

  /** Each append to the entity was inserted after the last row of it, by a client that had read that row. */
  ghost predicate Undisturbed(h: Hashes, s: System, moves: seq<Move>, entity: Entity)
    requires Legal(h, s, moves)
    decreases |moves|
  {
    moves == [] ||
    (!Overtakes(h, s, moves[0], entity) && !Backdates(h, s, moves[0], entity)
     && Undisturbed(h, Apply(h, s, moves[0]), moves[1..], entity))
  }

  /** No digest is the starting hash. */
  ghost predicate NeverGenesis(h: Hashes) {
    forall x :: h.event(x) != GENESIS
  }

  ghost predicate HashesDiffer(rows: seq<AuditEvent>) {
    && (forall i :: 0 <= i < |rows| ==> rows[i].eventHash != GENESIS)
    && (forall i, j :: 0 <= i < j < |rows| ==> rows[i].eventHash != rows[j].eventHash)
  }

  /** A hash that could be read from the log. */
  ghost predicate IsKnown(events: seq<AuditEvent>, hash: string) {
    hash == GENESIS || exists i :: 0 <= i < |events| && events[i].eventHash == hash
  }

  /**
   * What a client remembers is a hash of the log. It is the one at the place where the client
   * read it as long as the chain verifies or nothing was added; then its search holds too.
   */
  ghost predicate ClientOk(h: Hashes, events: seq<AuditEvent>, client: Client) {
    var rows := Rows(events, client.input.entity);
    !client.Reading? ==>
      && client.seen <= |rows| && IsKnown(events, client.previous)
      && (Verified(h, rows) || client.seen == |rows| ==> client.previous == HashBefore(rows, client.seen))
      && (!client.Searching? && client.seen == |rows| ==>
            FindRepeat(rows, client.input.eventType, h.fingerprint(client.input)).None?)
  }

  ghost predicate Inv(h: Hashes, s: System) {
    && HashesDiffer(s.events)
    && (forall i :: 0 <= i < |s.events| ==> IsKnown(s.events, s.events[i].previousEventHash))
    && (forall c :: c in s.clients ==> ClientOk(h, s.events, s.clients[c]))
  }

  lemma {:induction false} RowsOfConcat(a: seq<AuditEvent>, b: seq<AuditEvent>, entity: Entity)
    ensures Rows(a + b, entity) == Rows(a, entity) + Rows(b, entity)
    decreases |b|
  {
    if b == [] {
      assert a + b == a;
    } else {
      var n := |b| - 1;
      RowsOfConcat(a, b[..n], entity);
      assert a + b == (a + b[..n]) + [b[n]];
      RowsOfAppend(a + b[..n], b[n], entity);
    }
  }

  /** The rows of an entity on both sides of a place, and what a row put there makes of them. */
  lemma {:induction false} RowsOfPut(events: seq<AuditEvent>, at: nat, e: AuditEvent, entity: Entity)
    requires at <= |events|
    ensures Rows(events, entity) == Rows(events[..at], entity) + Rows(events[at..], entity)
    ensures Rows(Put(events, at, e), entity) ==
      Rows(events[..at], entity) + (if e.entity == entity then [e] else []) + Rows(events[at..], entity)
  {
    assert events == events[..at] + events[at..];
    RowsOfConcat(events[..at], events[at..], entity);
    RowsOfAppend(events[..at], e, entity);
    RowsOfConcat(events[..at] + [e], events[at..], entity);
  }

  lemma {:induction false} RowsDifferToo(events: seq<AuditEvent>, entity: Entity)
    requires HashesDiffer(events)
    ensures HashesDiffer(Rows(events, entity))
    decreases |events|
  {
    if events != [] {
      var init, last := events[..|events| - 1], events[|events| - 1];
      RowsDifferToo(init, entity);
      RowsAreRows(init, entity);
      assert forall x :: x in init ==> x.eventHash != last.eventHash;
    }
  }

  lemma {:induction false} PutKeepsTable(events: seq<AuditEvent>, at: nat, e: AuditEvent)
    requires at <= |events| && HashesDiffer(events) && e.eventHash != GENESIS && FindHash(events, e.eventHash).None?
    ensures HashesDiffer(Put(events, at, e))
  {
    var more := Put(events, at, e);
    forall i | 0 <= i < |more| ensures more[i].eventHash != GENESIS {
      PutAt(events, at, e, i);
    }
    forall i, j | 0 <= i < j < |more| ensures more[i].eventHash != more[j].eventHash {
      PutAt(events, at, e, i);
      PutAt(events, at, e, j);
    }
  }

  lemma PutAt(events: seq<AuditEvent>, at: nat, e: AuditEvent, i: nat)
    requires at <= |events| && i <= |events|
    ensures Put(events, at, e)[i] == if i < at then events[i] else if i == at then e else events[i - 1]
    ensures i != at ==> Put(events, at, e)[i] in events
  {
  }

  lemma PutKeepsKnown(events: seq<AuditEvent>, at: nat, e: AuditEvent, hash: string)
    requires at <= |events| && IsKnown(events, hash)
    ensures IsKnown(Put(events, at, e), hash)
  {
    if hash != GENESIS {
      var i :| 0 <= i < |events| && events[i].eventHash == hash;
      assert Put(events, at, e)[if i < at then i else i + 1] == events[i];
    }
  }

  lemma PutKeepsAllKnown(events: seq<AuditEvent>, at: nat, e: AuditEvent)
    requires at <= |events| && IsKnown(events, e.previousEventHash)
    requires forall i :: 0 <= i < |events| ==> IsKnown(events, events[i].previousEventHash)
    ensures var more := Put(events, at, e); forall i :: 0 <= i < |more| ==> IsKnown(more, more[i].previousEventHash)
  {
    var more := Put(events, at, e);
    forall i | 0 <= i < |more| ensures IsKnown(more, more[i].previousEventHash) {
      assert more[i] == if i < at then events[i] else if i == at then e else events[i - 1];
      PutKeepsKnown(events, at, e, more[i].previousEventHash);
    }
  }

  // ----------------------------------------------------- when a chain still verifies

  /** A new row links to the head exactly when it was written by a client that still knew the head. */
  lemma LinkedIffCurrent(h: Hashes, rows: seq<AuditEvent>, input: Input, seen: nat)
    requires HashesDiffer(rows) && seen <= |rows|
    ensures LinkAt(h, rows + [LinkedEvent(h, input, HashBefore(rows, seen))], |rows|) <==> seen == |rows|
  {
    var e := LinkedEvent(h, input, HashBefore(rows, seen));
    assert HashBefore(rows + [e], |rows|) == HashBefore(rows, |rows|);
    if seen < |rows| {
      assert HashBefore(rows, seen) != HashBefore(rows, |rows|);
    }
  }

  lemma VerifiedSnoc(h: Hashes, rows: seq<AuditEvent>, e: AuditEvent)
    ensures Verified(h, rows + [e]) <==> Verified(h, rows) && LinkAt(h, rows + [e], |rows|)
  {
    var more := rows + [e];
    forall i | 0 <= i < |rows| ensures LinkAt(h, more, i) <==> LinkAt(h, rows, i) {
      assert HashBefore(more, i) == HashBefore(rows, i);
    }
  }

  /** Nothing links to a row that was not there before, so a row put between others breaks the chain. */
  lemma BackdatedBreaks(h: Hashes, left: seq<AuditEvent>, e: AuditEvent, right: seq<AuditEvent>)
    requires right != [] && right[0].previousEventHash != e.eventHash
    ensures !Verified(h, left + [e] + right)
  {
    var rows := left + [e] + right;
    assert rows[|left| + 1] == right[0] && HashBefore(rows, |left| + 1) == e.eventHash;
    assert !LinkAt(h, rows, |left| + 1);
  }

  lemma {:induction false} InsertVerifiesIff(h: Hashes, s: System, m: Move, entity: Entity)
    requires NeverGenesis(h) && Inv(h, s) && Enabled(s, m) && Inserts(h, s, m) && s.clients[m.c].input.entity == entity
    ensures Verified(h, Rows(Put(s.events, m.at, NewRow(h, s, m.c)), entity)) <==>
      Verified(h, Rows(s.events, entity)) && !Overtakes(h, s, m, entity) && !Backdates(h, s, m, entity)
  {
    var client, e := s.clients[m.c], NewRow(h, s, m.c);
    var rows, left, right := Rows(s.events, entity), Rows(s.events[..m.at], entity), Rows(s.events[m.at..], entity);
    assert ClientOk(h, s.events, s.clients[m.c]);
    RowsOfPut(s.events, m.at, e, entity);
    if right == [] {
      assert left + [] == left && left + [e] + [] == rows + [e];
      RowsDifferToo(s.events, entity);
      VerifiedSnoc(h, rows, e);
      if Verified(h, rows) {
        LinkedIffCurrent(h, rows, client.input, client.seen);
      }
    } else {
      RowsAreRows(s.events[m.at..], entity);
      assert right[0] in right && right[0] in s.events;
      KnownIsNotNew(s.events, right[0].previousEventHash, e.eventHash);
      BackdatedBreaks(h, left, e, right);
    }
  }

  lemma {:induction false} KnownIsNotNew(events: seq<AuditEvent>, hash: string, other: string)
    requires IsKnown(events, hash) && other != GENESIS && FindHash(events, other).None?
    ensures hash != other
  {
    if hash != GENESIS {
      var i :| 0 <= i < |events| && events[i].eventHash == hash;
      assert events[i] in events;
    }
  }

  /** One move keeps a verified chain verified exactly when it is neither overtaken nor backdated, and never mends a broken one. */
  lemma {:induction false} MoveVerifiesIff(h: Hashes, s: System, m: Move, entity: Entity)
    requires NeverGenesis(h) && Inv(h, s) && Enabled(s, m)
    ensures Verified(h, Rows(Apply(h, s, m).events, entity)) <==>
      Verified(h, Rows(s.events, entity)) && !Overtakes(h, s, m, entity) && !Backdates(h, s, m, entity)
  {
    if Inserts(h, s, m) {
      if s.clients[m.c].input.entity == entity {
        InsertVerifiesIff(h, s, m, entity);
      } else {
        OthersRowsStay(s.events, m.at, NewRow(h, s, m.c), entity);
      }
    }
  }

  lemma {:induction false} OthersRowsStay(events: seq<AuditEvent>, at: nat, e: AuditEvent, entity: Entity)
    requires at <= |events| && e.entity != entity
    ensures Rows(Put(events, at, e), entity) == Rows(events, entity)
  {
    RowsOfPut(events, at, e, entity);
    assert Rows(events[..at], entity) + [] == Rows(events[..at], entity);
  }

  // ---------------------------------------------------------------- every interleaving

  /** What a client remembers of its own entity, after another one's row was added to it. */
  lemma RememberedStays(h: Hashes, s: System, m: Move, client: Client)
    requires NeverGenesis(h) && Inv(h, s) && Enabled(s, m) && Inserts(h, s, m) && !client.Reading?
    requires s.clients[m.c].input.entity == client.input.entity
    requires var rows := Rows(s.events, client.input.entity);
      client.seen <= |rows| && (Verified(h, rows) ==> client.previous == HashBefore(rows, client.seen))
    ensures var rows := Rows(Apply(h, s, m).events, client.input.entity);
      client.seen < |rows| && (Verified(h, rows) ==> client.previous == HashBefore(rows, client.seen))
  {
    var entity, e := client.input.entity, NewRow(h, s, m.c);
    RowsOfPut(s.events, m.at, e, entity);
    InsertVerifiesIff(h, s, m, entity);
    var rows := Rows(s.events, entity);
    assert Rows(s.events[m.at..], entity) == [] ==> Rows(Put(s.events, m.at, e), entity) == rows + [e];
  }

  lemma ClientStaysOk(h: Hashes, s: System, m: Move, c: ClientId, s': System)
    requires NeverGenesis(h) && Inv(h, s) && Enabled(s, m) && Inserts(h, s, m) && s' == Apply(h, s, m)
    requires c in s.clients && c in s'.clients && s'.clients[c] == s.clients[c]
    ensures ClientOk(h, s'.events, s'.clients[c])
  {
    assert ClientOk(h, s.events, s.clients[c]);
    var client, e := s.clients[c], NewRow(h, s, m.c);
    if !client.Reading? {
      PutKeepsKnown(s.events, m.at, e, client.previous);
      if e.entity == client.input.entity {
        RememberedStays(h, s, m, client);
      } else {
        OthersRowsStay(s.events, m.at, e, client.input.entity);
      }
    }
  }

  lemma InsertKeepsInv(h: Hashes, s: System, m: Move)
    requires NeverGenesis(h) && Inv(h, s) && Enabled(s, m) && Inserts(h, s, m)
    ensures Inv(h, Apply(h, s, m))
  {
    var s', e := Apply(h, s, m), NewRow(h, s, m.c);
    assert ClientOk(h, s.events, s.clients[m.c]);
    PutKeepsTable(s.events, m.at, e);
    PutKeepsAllKnown(s.events, m.at, e);
    forall c | c in s'.clients ensures ClientOk(h, s'.events, s'.clients[c]) {
      ClientStaysOk(h, s, m, c, s');
    }
  }

  lemma {:induction false} HeadIsKnown(events: seq<AuditEvent>, entity: Entity)
    ensures IsKnown(events, HashBefore(Rows(events, entity), |Rows(events, entity)|))
  {
    RowsAreRows(events, entity);
    var rows := Rows(events, entity);
    if rows != [] {
      assert rows[|rows| - 1] in rows;
    }
  }

  lemma ApplyKeepsInv(h: Hashes, s: System, m: Move)
    requires NeverGenesis(h) && Inv(h, s) && Enabled(s, m)
    ensures Inv(h, Apply(h, s, m))
  {
    if Inserts(h, s, m) {
      InsertKeepsInv(h, s, m);
    } else {
      if m.Read? {
        HeadIsKnown(s.events, s.clients[m.c].input.entity);
      }
      OthersKeepInv(h, s, m);
    }
  }

  /** A move that adds no row: a client remembers the head it read, or the search it made. */
  lemma {:induction false} OthersKeepInv(h: Hashes, s: System, m: Move)
    requires Inv(h, s) && Enabled(s, m) && !Inserts(h, s, m)
    requires m.Read? ==> var rows := Rows(s.events, s.clients[m.c].input.entity); IsKnown(s.events, HashBefore(rows, |rows|))
    ensures Inv(h, Apply(h, s, m))
  {
    var s' := Apply(h, s, m);
    assert s'.events == s.events;
    forall c | c in s'.clients ensures ClientOk(h, s'.events, s'.clients[c]) {
      assert c in s.clients ==> ClientOk(h, s.events, s.clients[c]);
    }
  }

  lemma {:induction false} VerifiesIffUndisturbedFrom(h: Hashes, s: System, moves: seq<Move>, entity: Entity)
    requires NeverGenesis(h) && Inv(h, s) && Legal(h, s, moves)
    ensures Verified(h, Rows(Run(h, s, moves).events, entity)) <==>
      Verified(h, Rows(s.events, entity)) && Undisturbed(h, s, moves, entity)
    decreases |moves|
  {
    if moves != [] {
      ApplyKeepsInv(h, s, moves[0]);
      MoveVerifiesIff(h, s, moves[0], entity);
      VerifiesIffUndisturbedFrom(h, Apply(h, s, moves[0]), moves[1..], entity);
    }
  }

  /**
   * After any interleaving the chain of an entity verifies if and only if no append to it
   * was inserted between the read of another append to it and that one's insert, and none
   * got a creation time before that of a row of the chain.
   */
  lemma {:induction false} ChainVerifiesIffUndisturbed(h: Hashes, moves: seq<Move>, entity: Entity)
    requires NeverGenesis(h) && Legal(h, START, moves)
    ensures Verified(h, Rows(Run(h, START, moves).events, entity)) <==> Undisturbed(h, START, moves, entity)
  {
    VerifiesIffUndisturbedFrom(h, START, moves, entity);
  }

  // ------------------------------------------------------------------ serial histories

  ghost predicate UndisturbedAnywhere(h: Hashes, s: System, moves: seq<Move>)
    requires Legal(h, s, moves)
  {
    forall entity :: Undisturbed(h, s, moves, entity)
  }

  ghost predicate IsSerial(h: Hashes, events: seq<AuditEvent>) {
    exists inputs :: events == A.Run(h, inputs)
  }

  /** The row is the one a whole append of the input adds to the rows before it. */
  predicate AddsRow(h: Hashes, events: seq<AuditEvent>, x: Input, e: AuditEvent) {
    && e == NextEvent(h, events, x) && FindRepeat(Rows(events, x.entity), x.eventType, h.fingerprint(x)).None?
    && FindHash(events, e.eventHash).None?
  }

  /** What it takes for a row to be added: `AddsRow` for given hashes. */
  type Adds = (seq<AuditEvent>, Input, AuditEvent) -> bool

  function AddsOf(h: Hashes): Adds {
    (events, x, e) => AddsRow(h, events, x, e)
  }

  /** Row by row, the log is one that the inputs add. */
  predicate SerialBy(adds: Adds, events: seq<AuditEvent>, inputs: seq<Input>)
    decreases |events|
  {
    && |inputs| == |events|
    && (events != [] ==>
          var n := |events| - 1;
          SerialBy(adds, events[..n], inputs[..n]) && adds(events[..n], inputs[n], events[n]))
  }

  lemma {:induction false} AddsRowRuns(h: Hashes, inputs: seq<Input>, x: Input, e: AuditEvent)
    requires AddsRow(h, A.Run(h, inputs), x, e)
    ensures A.Run(h, inputs + [x]) == A.Run(h, inputs) + [e]
  {
    assert (inputs + [x])[..|inputs|] == inputs;
  }

  lemma {:induction false} SerialByRuns(run: seq<Input> -> seq<AuditEvent>, adds: Adds, events: seq<AuditEvent>, inputs: seq<Input>)
    requires SerialBy(adds, events, inputs) && run([]) == []
    requires forall xs, x, e :: adds(run(xs), x, e) ==> run(xs + [x]) == run(xs) + [e]
    ensures run(inputs) == events
    decreases |events|
  {
    if events == [] {
      assert inputs == [];
    } else {
      var n := |events| - 1;
      SerialByRuns(run, adds, events[..n], inputs[..n]);
      assert inputs == inputs[..n] + [inputs[n]] && events == events[..n] + [events[n]];
    }
  }

  lemma {:induction false} SerialIsRun(h: Hashes, events: seq<AuditEvent>, inputs: seq<Input>)
    requires SerialBy(AddsOf(h), events, inputs)
    ensures A.Run(h, inputs) == events
  {
    var run := xs => A.Run(h, xs);
    forall xs, x, e | AddsOf(h)(run(xs), x, e) ensures run(xs + [x]) == run(xs) + [e] {
      AddsRowRuns(h, xs, x, e);
    }
    SerialByRuns(run, AddsOf(h), events, inputs);
  }

  /** A new row at the end of its chain, by a client that knew the head, is one whole append to the rows before it. */
  lemma NewRowIsAppend(h: Hashes, s: System, m: Move)
    requires Inv(h, s) && Enabled(s, m) && Inserts(h, s, m)
    requires var entity := s.clients[m.c].input.entity; !Overtakes(h, s, m, entity) && !Backdates(h, s, m, entity)
    ensures AddsRow(h, s.events[..m.at], s.clients[m.c].input, NewRow(h, s, m.c))
  {
    assert ClientOk(h, s.events, s.clients[m.c]);
    var entity, e := s.clients[m.c].input.entity, NewRow(h, s, m.c);
    RowsOfPut(s.events, m.at, e, entity);
    assert Rows(s.events[..m.at], entity) == Rows(s.events, entity);
    PrefixHasNoHash(s.events, m.at, e.eventHash);
  }

  lemma {:induction false} AbsentIsNotFound(events: seq<AuditEvent>, hash: string)
    requires forall x :: x in events ==> x.eventHash != hash
    ensures FindHash(events, hash).None?
  {
  }

  lemma {:induction false} PrefixHasNoHash(events: seq<AuditEvent>, at: nat, hash: string)
    requires at <= |events| && FindHash(events, hash).None?
    ensures FindHash(events[..at], hash).None?
  {
    assert forall x :: x in events[..at] ==> x in events;
    AbsentIsNotFound(events[..at], hash);
  }

  /** A later row of another entity is the same append with the new row before it. */
  lemma LaterAppendStays(h: Hashes, before: seq<AuditEvent>, at: nat, e: AuditEvent, x: Input, next: AuditEvent)
    requires at <= |before| && AddsRow(h, before, x, next) && e.entity != x.entity && e.eventHash != next.eventHash
    ensures AddsRow(h, Put(before, at, e), x, next)
  {
    OthersRowsStay(before, at, e, x.entity);
    assert forall y :: y in Put(before, at, e) ==> y in before || y == e;
    AbsentIsNotFound(Put(before, at, e), next.eventHash);
  }

  lemma {:induction false} SerialSnoc(adds: Adds, events: seq<AuditEvent>, inputs: seq<Input>, x: Input, e: AuditEvent)
    requires SerialBy(adds, events, inputs) && adds(events, x, e)
    ensures SerialBy(adds, events + [e], inputs + [x])
  {
    assert (events + [e])[..|events|] == events && (inputs + [x])[..|events|] == inputs;
  }

  lemma PutSnoc<T>(xs: seq<T>, at: nat, x: T)
    requires at < |xs|
    ensures var n := |xs| - 1; Put(xs, at, x) == Put(xs[..n], at, x) + [xs[n]]
  {
  }

  /** A row put among others leaves the log serial if it is added where it is put and the later ones are still added. */
  lemma {:induction false} PutKeepsSerial(adds: Adds, events: seq<AuditEvent>, inputs: seq<Input>, at: nat, x: Input, e: AuditEvent)
    requires SerialBy(adds, events, inputs) && at <= |events| && adds(events[..at], x, e)
    requires forall n :: at <= n < |events| ==> adds(Put(events[..n], at, e), inputs[n], events[n])
    ensures SerialBy(adds, Put(events, at, e), Put(inputs, at, x))
    decreases |events|
  {
    if |events| == at {
      assert Put(events, at, e) == events + [e] && Put(inputs, at, x) == inputs + [x] && events[..at] == events;
      SerialSnoc(adds, events, inputs, x, e);
    } else {
      var n := |events| - 1;
      assert events[..n][..at] == events[..at];
      forall k | at <= k < n ensures adds(Put(events[..n][..k], at, e), inputs[..n][k], events[..n][k]) {
        assert events[..n][..k] == events[..k];
      }
      PutKeepsSerial(adds, events[..n], inputs[..n], at, x, e);
      SerialSnoc(adds, Put(events[..n], at, e), Put(inputs[..n], at, x), inputs[n], events[n]);
      PutSnoc(events, at, e);
      PutSnoc(inputs, at, x);
    }
  }

  lemma {:induction false} SerialAt(adds: Adds, events: seq<AuditEvent>, inputs: seq<Input>, n: nat)
    requires SerialBy(adds, events, inputs) && n < |events|
    ensures adds(events[..n], inputs[n], events[n])
    decreases |events|
  {
    var m := |events| - 1;
    if n < m {
      SerialAt(adds, events[..m], inputs[..m], n);
      assert events[..m][..n] == events[..n];
    }
  }

  lemma {:induction false} RowIsOfInput(h: Hashes, events: seq<AuditEvent>, x: Input, e: AuditEvent)
    requires AddsRow(h, events, x, e)
    ensures e.entity == x.entity
  {
  }

  lemma {:induction false} InsertKeepsSerial(h: Hashes, s: System, m: Move, inputs: seq<Input>)
    requires Inv(h, s) && Enabled(s, m) && Inserts(h, s, m) && SerialBy(AddsOf(h), s.events, inputs)
    requires var entity := s.clients[m.c].input.entity; !Overtakes(h, s, m, entity) && !Backdates(h, s, m, entity)
    ensures SerialBy(AddsOf(h), Apply(h, s, m).events, Put(inputs, m.at, s.clients[m.c].input))
  {
    var x, e := s.clients[m.c].input, NewRow(h, s, m.c);
    NewRowIsAppend(h, s, m);
    forall n | m.at <= n < |s.events| ensures AddsOf(h)(Put(s.events[..n], m.at, e), inputs[n], s.events[n]) {
      LaterRowStays(h, s.events, inputs, m.at, x.entity, e, n);
    }
    PutKeepsSerial(AddsOf(h), s.events, inputs, m.at, x, e);
  }

  /** A later row is of another entity, and is added after the new row as it was before. */
  lemma {:induction false} LaterRowStays(h: Hashes, events: seq<AuditEvent>, inputs: seq<Input>, at: nat, entity: Entity, e: AuditEvent, n: nat)
    requires SerialBy(AddsOf(h), events, inputs) && at <= n < |events|
    requires e.entity == entity && Rows(events[at..], entity) == [] && FindHash(events, e.eventHash).None?
    ensures AddsRow(h, Put(events[..n], at, e), inputs[n], events[n])
  {
    SerialAt(AddsOf(h), events, inputs, n);
    RowIsOfInput(h, events[..n], inputs[n], events[n]);
    LaterRowIsForeign(h, events, at, n, entity, e.eventHash);
    LaterAppendStays(h, events[..n], at, e, inputs[n], events[n]);
  }

  lemma {:induction false} LaterRowIsForeign(h: Hashes, events: seq<AuditEvent>, at: nat, i: nat, entity: Entity, hash: string)
    requires at <= i < |events| && Rows(events[at..], entity) == [] && FindHash(events, hash).None?
    ensures events[i].entity != entity && events[i].eventHash != hash
  {
    assert events[at..][i - at] == events[i] && events[i] in events;
    InRows(events[at..], events[i]);
  }

  lemma {:induction false} SerialFrom(h: Hashes, s: System, moves: seq<Move>, before: seq<Input>) returns (inputs: seq<Input>)
    requires NeverGenesis(h) && Inv(h, s) && Legal(h, s, moves) && SerialBy(AddsOf(h), s.events, before)
    requires UndisturbedAnywhere(h, s, moves)
    ensures SerialBy(AddsOf(h), Run(h, s, moves).events, inputs)
    decreases |moves|
  {
    if moves == [] {
      inputs := before;
    } else {
      var m := moves[0];
      var s' := Apply(h, s, m);
      ApplyKeepsInv(h, s, m);
      forall entity ensures !Overtakes(h, s, m, entity) && !Backdates(h, s, m, entity) && Undisturbed(h, s', moves[1..], entity) {
        assert Undisturbed(h, s, moves, entity);
      }
      if Inserts(h, s, m) {
        InsertKeepsSerial(h, s, m, before);
        inputs := SerialFrom(h, s', moves[1..], Put(before, m.at, s.clients[m.c].input));
      } else {
        assert s'.events == s.events;
        inputs := SerialFrom(h, s', moves[1..], before);
      }
    }
  }

  /**
   * The log that an interleaving leaves is that of some appends made one at a time if and
   * only if no append was overtaken or backdated. Then the theorems on whole appends hold of it.
   */
  lemma {:induction false} LogIsSerialIffUndisturbed(h: Hashes, moves: seq<Move>)
    requires Faithful(h) && NeverGenesis(h) && Legal(h, START, moves)
    ensures IsSerial(h, Run(h, START, moves).events) <==> UndisturbedAnywhere(h, START, moves)
  {
    if UndisturbedAnywhere(h, START, moves) {
      var inputs := SerialFrom(h, START, moves, []);
      SerialIsRun(h, Run(h, START, moves).events, inputs);
    }
    if IsSerial(h, Run(h, START, moves).events) {
      var inputs :| Run(h, START, moves).events == A.Run(h, inputs);
      forall entity ensures Undisturbed(h, START, moves, entity) {
        ChainIsOwnInputsWithoutRepeats(h, inputs, entity);
        ChainVerifiesIffUndisturbed(h, moves, entity);
      }
    }
  }

  // ------------------------------------------------------------------ repeated events

  ghost predicate SameEvent(a: AuditEvent, b: AuditEvent) {
    a.eventType == b.eventType && exists f :: HasFingerprint(a.payload, f) && HasFingerprint(b.payload, f)
  }

  ghost predicate NoRepeats(rows: seq<AuditEvent>) {
    forall i, j :: 0 <= i < j < |rows| ==> !SameEvent(rows[i], rows[j])
  }

  lemma {:induction false} NewRowRepeatsNothing(h: Hashes, rows: seq<AuditEvent>, input: Input, previous: string)
    requires NoRepeats(rows) && FindRepeat(rows, input.eventType, h.fingerprint(input)).None?
    ensures NoRepeats(rows + [LinkedEvent(h, input, previous)])
  {
    var e := LinkedEvent(h, input, previous);
    forall i | 0 <= i < |rows| ensures !SameEvent(rows[i], e) {
      assert !IsRepeat(rows[i], input.eventType, h.fingerprint(input));
      forall f | HasFingerprint(e.payload, f) ensures f == h.fingerprint(input) {
        OneFingerprint(e.payload, f, h.fingerprint(input));
      }
    }
  }

  lemma LastRowIsAdded(h: Hashes, s: System, m: Move)
    requires Inv(h, s) && Enabled(s, m) && Inserts(h, s, m)
    requires var entity := s.clients[m.c].input.entity; !Overtakes(h, s, m, entity) && !Backdates(h, s, m, entity)
    ensures var input := s.clients[m.c].input; var rows := Rows(s.events, input.entity);
      && Rows(Apply(h, s, m).events, input.entity) == rows + [NewRow(h, s, m.c)]
      && FindRepeat(rows, input.eventType, h.fingerprint(input)).None?
  {
    assert ClientOk(h, s.events, s.clients[m.c]);
    RowsOfPut(s.events, m.at, NewRow(h, s, m.c), s.clients[m.c].input.entity);
  }

  lemma {:induction false} MoveKeepsNoRepeats(h: Hashes, s: System, m: Move, entity: Entity)
    requires Inv(h, s) && Enabled(s, m) && !Overtakes(h, s, m, entity) && !Backdates(h, s, m, entity)
    requires NoRepeats(Rows(s.events, entity))
    ensures NoRepeats(Rows(Apply(h, s, m).events, entity))
  {
    if Inserts(h, s, m) {
      var client := s.clients[m.c];
      if client.input.entity == entity {
        LastRowIsAdded(h, s, m);
        NewRowRepeatsNothing(h, Rows(s.events, entity), client.input, client.previous);
      } else {
        OthersRowsStay(s.events, m.at, NewRow(h, s, m.c), entity);
      }
    }
  }

  lemma {:induction false} NoRepeatsFrom(h: Hashes, s: System, moves: seq<Move>, entity: Entity)
    requires NeverGenesis(h) && Inv(h, s) && Legal(h, s, moves)
    requires Undisturbed(h, s, moves, entity) && NoRepeats(Rows(s.events, entity))
    ensures NoRepeats(Rows(Run(h, s, moves).events, entity))
    decreases |moves|
  {
    if moves != [] {
      ApplyKeepsInv(h, s, moves[0]);
      MoveKeepsNoRepeats(h, s, moves[0], entity);
      NoRepeatsFrom(h, Apply(h, s, moves[0]), moves[1..], entity);
    }
  }

  /** An event is stored twice for an entity only if one of its appends was overtaken or backdated; then its chain is broken as well. */
  lemma {:induction false} RepeatNeedsDisturbance(h: Hashes, moves: seq<Move>, entity: Entity)
    requires NeverGenesis(h) && Legal(h, START, moves) && !NoRepeats(Rows(Run(h, START, moves).events, entity))
    ensures !Undisturbed(h, START, moves, entity) && !Verified(h, Rows(Run(h, START, moves).events, entity))
  {
    if Undisturbed(h, START, moves, entity) {
      NoRepeatsFrom(h, START, moves, entity);
    }
    ChainVerifiesIffUndisturbed(h, moves, entity);
  }

  // ------------------------------------------------------------------------ a fork

  lemma {:induction false} OneMore(h: Hashes, s: System, moves: seq<Move>, m: Move)
    requires Legal(h, s, moves) && Enabled(Run(h, s, moves), m)
    ensures Legal(h, s, moves + [m]) && Run(h, s, moves + [m]) == Apply(h, Run(h, s, moves), m)
    decreases |moves|
  {
    if moves == [] {
      assert [m][1..] == [];
    } else {
      OneMore(h, Apply(h, s, moves[0]), moves[1..], m);
      assert (moves + [m])[1..] == moves[1..] + [m];
    }
  }

  /** Fingerprints tell the rows of two inputs apart, whatever they link to. */
  lemma RowsDiffer(h: Hashes, x: Input, y: Input, previous: string)
    requires Faithful(h) && h.fingerprint(x) != h.fingerprint(y)
    ensures LinkedEvent(h, x, previous).eventHash != LinkedEvent(h, y, previous).eventHash
  {
    var p, q := StoredPayload(x, h.fingerprint(x)), StoredPayload(y, h.fingerprint(y));
    if LinkedEvent(h, x, previous).eventHash == LinkedEvent(h, y, previous).eventHash {
      var a, b := Hashed(x.entity, x.eventType, p, previous), Hashed(y.entity, y.eventType, q, previous);
      assert h.event(a) == h.event(b);
      CanonKeepsFingerprint(p, q, h.fingerprint(x));
      OneFingerprint(q, h.fingerprint(x), h.fingerprint(y));
    }
  }

  lemma {:induction false} TwoMore(h: Hashes, s: System, moves: seq<Move>, m: Move, n: Move)
    requires Legal(h, s, moves) && Enabled(Run(h, s, moves), m) && Enabled(Apply(h, Run(h, s, moves), m), n)
    ensures Legal(h, s, moves + [m, n]) && Run(h, s, moves + [m, n]) == Apply(h, Apply(h, Run(h, s, moves), m), n)
  {
    OneMore(h, s, moves, m);
    OneMore(h, s, moves + [m], n);
    assert moves + [m] + [n] == moves + [m, n];
  }

  /** Two clients come to the point of inserting into an empty log; both read the starting hash. */
  lemma BothReady(h: Hashes, x: Input, y: Input) returns (moves: seq<Move>)
    ensures Legal(h, START, moves)
    ensures Run(h, START, moves) == System([], map[0 := Creating(x, GENESIS, 0), 1 := Creating(y, GENESIS, 0)])
  {
    moves := BothRead(h, x, y);
    TwoMore(h, START, moves, Search(0), Search(1));
    moves := moves + [Search(0), Search(1)];
    assert Run(h, START, moves) == System([], map[0 := Probing(x, GENESIS, 0), 1 := Probing(y, GENESIS, 0)]);
    TwoMore(h, START, moves, Probe(0), Probe(1));
    moves := moves + [Probe(0), Probe(1)];
  }

  lemma BothRead(h: Hashes, x: Input, y: Input) returns (moves: seq<Move>)
    ensures Legal(h, START, moves)
    ensures Run(h, START, moves) == System([], map[0 := Searching(x, GENESIS, 0), 1 := Searching(y, GENESIS, 0)])
  {
    moves := [];
    TwoMore(h, START, moves, Begin(0, x), Begin(1, y));
    moves := moves + [Begin(0, x), Begin(1, y)];
    TwoMore(h, START, moves, Read(0), Read(1));
    moves := moves + [Read(0), Read(1)];
  }

  /** One more row at the end of the log. */
  lemma CreatesLast(h: Hashes, moves: seq<Move>, c: ClientId, e: AuditEvent) returns (longer: seq<Move>)
    requires Legal(h, START, moves)
    requires var s := Run(h, START, moves);
      c in s.clients && s.clients[c].Creating? && NewRow(h, s, c) == e && FindHash(s.events, e.eventHash).None?
    ensures Legal(h, START, longer)
    ensures var s := Run(h, START, moves); Run(h, START, longer) == System(s.events + [e], s.clients - {c})
  {
    var s := Run(h, START, moves);
    OneMore(h, START, moves, Create(c, |s.events|));
    longer := moves + [Create(c, |s.events|)];
    assert Put(s.events, |s.events|, e) == s.events + [e];
  }

  lemma OneRow(e: AuditEvent)
    ensures Rows([e], e.entity) == [e] && HashBefore([e], 1) == e.eventHash
  {
    RowsOfAppend([], e, e.entity);
    assert [] + [e] == [e];
  }

  lemma TwoRows(e: AuditEvent, f: AuditEvent)
    requires e.entity == f.entity
    ensures Rows([e, f], e.entity) == [e, f]
  {
    OneRow(e);
    RowsOfAppend([e], f, e.entity);
    assert [e] + [f] == [e, f];
  }

  /** Any two different events of one entity can race into a forked chain: both link to the same row, and verification fails. */
  lemma TwoAppendsCanFork(h: Hashes, x: Input, y: Input) returns (moves: seq<Move>)
    requires Faithful(h) && NeverGenesis(h) && x.entity == y.entity && h.fingerprint(x) != h.fingerprint(y)
    ensures Legal(h, START, moves)
    ensures var rows := Rows(Run(h, START, moves).events, x.entity);
      && rows == [LinkedEvent(h, x, GENESIS), LinkedEvent(h, y, GENESIS)] && !Verified(h, rows)
  {
    moves := BothReady(h, x, y);
    var e, f := LinkedEvent(h, x, GENESIS), LinkedEvent(h, y, GENESIS);
    moves := CreatesLast(h, moves, 0, e);
    RowsDiffer(h, x, y, GENESIS);
    assert Run(h, START, moves).events == [e];
    moves := CreatesLast(h, moves, 1, f);
    assert [e] + [f] == [e, f];
    TwoRows(e, f);
    assert !LinkAt(h, [e, f], 1);
  }

  // --------------------------------------------------------------- a retry stored twice

  /** One client has read the starting hash when another appends `y` from beginning to end. */
  lemma AppendedBetween(h: Hashes, x: Input, y: Input) returns (moves: seq<Move>)
    ensures Legal(h, START, moves)
    ensures Run(h, START, moves) == System([LinkedEvent(h, y, GENESIS)], map[0 := Searching(x, GENESIS, 0)])
  {
    moves := BothRead(h, x, y);
    OneMore(h, START, moves, Search(1));
    moves := moves + [Search(1)];
    OneMore(h, START, moves, Probe(1));
    moves := moves + [Probe(1)];
    assert Run(h, START, moves) == System([], map[0 := Searching(x, GENESIS, 0), 1 := Creating(y, GENESIS, 0)]);
    moves := CreatesLast(h, moves, 1, LinkedEvent(h, y, GENESIS));
    assert [] + [LinkedEvent(h, y, GENESIS)] == [LinkedEvent(h, y, GENESIS)];
  }

  lemma BothDeliveriesRead(h: Hashes, x: Input, y: Input, e: AuditEvent) returns (moves: seq<Move>)
    requires e == LinkedEvent(h, y, GENESIS) && x.entity == y.entity
    ensures Legal(h, START, moves)
    ensures Run(h, START, moves) == System([e], map[0 := Searching(x, GENESIS, 0), 2 := Searching(x, e.eventHash, 1)])
  {
    moves := AppendedBetween(h, x, y);
    OneRow(e);
    ReadsHead(h, System([e], map[0 := Searching(x, GENESIS, 0)]), 2, x, [e]);
    TwoMore(h, START, moves, Begin(2, x), Read(2));
    moves := moves + [Begin(2, x), Read(2)];
  }

  lemma ReadsHead(h: Hashes, s: System, c: ClientId, x: Input, rows: seq<AuditEvent>)
    requires c !in s.clients && rows == Rows(s.events, x.entity)
    ensures Enabled(Apply(h, s, Begin(c, x)), Read(c))
    ensures Apply(h, Apply(h, s, Begin(c, x)), Read(c)) ==
      s.(clients := s.clients[c := Searching(x, HashBefore(rows, |rows|), |rows|)])
  {
  }

  lemma BothDeliveriesSearched(h: Hashes, x: Input, y: Input, e: AuditEvent) returns (moves: seq<Move>)
    requires e == LinkedEvent(h, y, GENESIS) && x.entity == y.entity && FindRepeat([e], x.eventType, h.fingerprint(x)).None?
    ensures Legal(h, START, moves)
    ensures Run(h, START, moves) == System([e], map[0 := Probing(x, GENESIS, 0), 2 := Probing(x, e.eventHash, 1)])
  {
    moves := BothDeliveriesRead(h, x, y, e);
    OneRow(e);
    TwoMore(h, START, moves, Search(0), Search(2));
    moves := moves + [Search(0), Search(2)];
  }

  /** A second delivery of `x` reads the row of `y`; neither delivery finds the other. */
  lemma BothDeliveriesReady(h: Hashes, x: Input, y: Input, e: AuditEvent) returns (moves: seq<Move>)
    requires e == LinkedEvent(h, y, GENESIS) && x.entity == y.entity
    requires FindRepeat([e], x.eventType, h.fingerprint(x)).None?
    requires FindHash([e], LinkedEvent(h, x, GENESIS).eventHash).None? && FindHash([e], LinkedEvent(h, x, e.eventHash).eventHash).None?
    ensures Legal(h, START, moves)
    ensures Run(h, START, moves) == System([e], map[0 := Creating(x, GENESIS, 0), 2 := Creating(x, e.eventHash, 1)])
  {
    moves := BothDeliveriesSearched(h, x, y, e);
    TwoMore(h, START, moves, Probe(0), Probe(2));
    moves := moves + [Probe(0), Probe(2)];
  }

  lemma LinkTellsApart(h: Hashes, x: Input, p: string, y: Input, q: string)
    requires Faithful(h) && (p != q || h.fingerprint(x) != h.fingerprint(y))
    ensures LinkedEvent(h, x, p).eventHash != LinkedEvent(h, y, q).eventHash
  {
    if p == q {
      RowsDiffer(h, x, y, p);
    } else {
      var a, b := Hashed(x.entity, x.eventType, StoredPayload(x, h.fingerprint(x)), p),
                  Hashed(y.entity, y.eventType, StoredPayload(y, h.fingerprint(y)), q);
      assert a.previousEventHash != b.previousEventHash;
      assert h.event(a) != h.event(b);
    }
  }

  /** An event delivered twice while another is appended can be stored twice. */
  lemma RetryCanBeStoredTwice(h: Hashes, x: Input, y: Input) returns (moves: seq<Move>)
    requires Faithful(h) && NeverGenesis(h) && x.entity == y.entity && h.fingerprint(x) != h.fingerprint(y)
    ensures Legal(h, START, moves)
    ensures var e := LinkedEvent(h, y, GENESIS);
      Run(h, START, moves).events == [e, LinkedEvent(h, x, GENESIS), LinkedEvent(h, x, e.eventHash)]
  {
    var e := LinkedEvent(h, y, GENESIS);
    var f, g := LinkedEvent(h, x, GENESIS), LinkedEvent(h, x, e.eventHash);
    LinkTellsApart(h, x, GENESIS, y, GENESIS);
    LinkTellsApart(h, x, e.eventHash, y, GENESIS);
    LinkTellsApart(h, x, e.eventHash, x, GENESIS);
    if HasFingerprint(e.payload, h.fingerprint(x)) {
      OneFingerprint(e.payload, h.fingerprint(x), h.fingerprint(y));
    }
    moves := BothDeliveriesReady(h, x, y, e);
    moves := CreatesLast(h, moves, 0, f);
    assert Run(h, START, moves).events == [e, f];
    moves := CreatesLast(h, moves, 2, g);
    assert [e, f] + [g] == [e, f, g];
  }

  // ------------------------------------------------------------- an earlier time stamp

  /** An append that has read the head and gets an earlier creation time than the head breaks the chain, although it is not overtaken. */
  lemma BackdatedAppendBreaks(h: Hashes, x: Input, y: Input) returns (moves: seq<Move>)
    requires Faithful(h) && NeverGenesis(h) && x.entity == y.entity && h.fingerprint(x) != h.fingerprint(y)
    ensures Legal(h, START, moves)
    ensures var e := LinkedEvent(h, y, GENESIS); var events := Run(h, START, moves).events;
      events == [LinkedEvent(h, x, e.eventHash), e] && !Verified(h, Rows(events, x.entity))
  {
    var e := LinkedEvent(h, y, GENESIS);
    var g := LinkedEvent(h, x, e.eventHash);
    LinkTellsApart(h, x, GENESIS, y, GENESIS);
    LinkTellsApart(h, x, e.eventHash, y, GENESIS);
    if HasFingerprint(e.payload, h.fingerprint(x)) {
      OneFingerprint(e.payload, h.fingerprint(x), h.fingerprint(y));
    }
    moves := BothDeliveriesReady(h, x, y, e);
    OneMore(h, START, moves, Create(2, 0));
    moves := moves + [Create(2, 0)];
    assert Put([e], 0, g) == [g, e];
    TwoRows(g, e);
    assert !LinkAt(h, [g, e], 0);
  }

  /** Some digest meets both hypotheses on the hashes of the code. */
  lemma HashHypothesesAreConsistent()
    ensures Faithful(Sha256Hashes(S.Spell)) && NeverGenesis(Sha256Hashes(S.Spell))
  {
    S.SpellIsInjective();
    Sha256HashesAreFaithful(S.Spell);
    assert GENESIS[0] == 's';
  }

  /** So with such a digest any two inputs of one entity that differ at all, be it in their key, fork its chain. */
  lemma {:induction false} DifferentInputsCanFork(digest: Json -> string, x: Input, y: Input) returns (moves: seq<Move>)
    requires Injective(digest) && NeverGenesis(Sha256Hashes(digest)) && x.entity == y.entity && !SameInput(x, y)
    ensures Legal(Sha256Hashes(digest), START, moves)
    ensures var h := Sha256Hashes(digest); !Verified(h, Rows(Run(h, START, moves).events, x.entity))
  {
    Sha256HashesAreFaithful(digest);
    FingerprintSeparates(digest, x, y);
    moves := TwoAppendsCanFork(Sha256Hashes(digest), x, y);
  }

  // -------------------------------------------------------------- a call on its own

  /** A call whose moves nothing interrupts, with a creation time after all others, is one whole append. */
  lemma AloneIsAppend(h: Hashes, events: seq<AuditEvent>, input: Input) returns (moves: seq<Move>)
    ensures Legal(h, System(events, map[]), moves)
    ensures Run(h, System(events, map[]), moves) == System(Append(h, events, input).0, map[])
  {
    var start := System(events, map[]);
    var rows := Rows(events, input.entity);
    var previous := HashBefore(rows, |rows|);
    ReadsHead(h, start, 0, input, rows);
    TwoMore(h, start, [], Begin(0, input), Read(0));
    moves := [] + [Begin(0, input), Read(0)];
    OneMore(h, start, moves, Search(0));
    moves := moves + [Search(0)];
    if FindRepeat(rows, input.eventType, h.fingerprint(input)).Some? {
      assert Run(h, start, moves).clients == map[];
    } else {
      moves := AloneFromProbe(h, events, input, start, moves);
    }
  }

  lemma AloneFromProbe(h: Hashes, events: seq<AuditEvent>, input: Input, start: System, before: seq<Move>) returns (moves: seq<Move>)
    requires FindRepeat(Rows(events, input.entity), input.eventType, h.fingerprint(input)).None?
    requires Legal(h, start, before)
    requires var rows := Rows(events, input.entity);
      Run(h, start, before) == System(events, map[0 := Probing(input, HashBefore(rows, |rows|), |rows|)])
    ensures Legal(h, start, moves) && Run(h, start, moves) == System(Append(h, events, input).0, map[])
  {
    OneMore(h, start, before, Probe(0));
    moves := before + [Probe(0)];
    if FindHash(events, NextEvent(h, events, input).eventHash).None? {
      OneMore(h, start, moves, Create(0, |events|));
      moves := moves + [Create(0, |events|)];
      assert Put(events, |events|, NextEvent(h, events, input)) == events + [NextEvent(h, events, input)];
    }
    assert Run(h, start, moves).clients == map[];
  }
}
