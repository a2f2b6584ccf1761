/**
 * `reserve` split at its awaits, with any number of clients interleaved. A client looks its
 * account up, creates it if it must, takes the row lock with the locked read, checks the
 * limit against the row it read, inserts the reservation, updates the row and commits; a
 * transaction can also roll back at any point under the lock. The other operations on
 * reservations run as whole transactions that wait for the row lock.
 *
 * The main theorem is a refinement: what other transactions can see (`View`) takes, at
 * every event, either no step or one atomic step of the ledger.
 */
module LedgerConcurrency {
  import opened Wrappers
  import opened Ledger

  type ClientId = nat

  datatype Client =
    | Finding(input: ReserveInput)
    | Creating(input: ReserveInput)
    | ReReading(input: ReserveInput)
    | Locking(input: ReserveInput, acc: Id)
    | Checking(input: ReserveInput, acc: Id, snap: Account)
    | Inserting(input: ReserveInput, acc: Id, snap: Account)
    | Updating(input: ReserveInput, acc: Id, snap: Account, res: Id)
    | Finishing(input: ReserveInput, acc: Id, snap: Account, res: Id)
    | Done(result: Result<Id>)
  {
    predicate HoldsLock() { Checking? || Inserting? || Updating? || Finishing? }
    predicate HasInserted() { Updating? || Finishing? }
  }

  /** The tables as written so far, who owns each locked row, and where each client is. */
  datatype System = System(db: State, owner: map<Id, ClientId>, clients: map<ClientId, Client>)

  const START := System(EMPTY, map[], map[])

  datatype Event =
    | Begin(c: ClientId, input: ReserveInput)
    | Find(c: ClientId, found: Option<Id>)
    | Create(c: ClientId)
    | ReRead(c: ClientId, found: Option<Id>)
    | Lock(c: ClientId)
    | Check(c: ClientId)
    | Insert(c: ClientId)
    | Update(c: ClientId)
    | Finish(c: ClientId)
    | RollBack(c: ClientId)
    | Open(row: Account)
    | Settle(op: Settlement, companyId: string, id: Id)

  /** The unique index over the bucket key; the database never equates two null networks. */
  predicate Conflicts(db: State, key: AccountKey) {
    key.network.Some? && exists a :: a in db.accounts && db.accounts[a].key == key
  }

  predicate Finds(db: State, key: AccountKey, found: Option<Id>) {
    match found
    case Some(a) => a in db.accounts && db.accounts[a].key == key
    case None => forall a :: a in db.accounts ==> db.accounts[a].key != key
  }

  predicate At(s: System, c: ClientId) { c in s.clients }

  predicate Enabled(s: System, e: Event) {
    match e
    case Begin(c, input) => !At(s, c) || s.clients[c].Done?
    case Find(c, found) => At(s, c) && s.clients[c].Finding? && Finds(s.db, s.clients[c].input.key, found)
    case Create(c) => At(s, c) && s.clients[c].Creating?
    case ReRead(c, found) => At(s, c) && s.clients[c].ReReading? && Finds(s.db, s.clients[c].input.key, found)
    case Lock(c) => At(s, c) && s.clients[c].Locking? && s.clients[c].acc !in s.owner
    case Check(c) => At(s, c) && s.clients[c].Checking?
    case Insert(c) => At(s, c) && s.clients[c].Inserting?
    case Update(c) => At(s, c) && s.clients[c].Updating? && s.clients[c].acc in s.db.accounts
    case Finish(c) => At(s, c) && s.clients[c].Finishing?
    case RollBack(c) => At(s, c) && s.clients[c].HoldsLock()
    case Open(row) => row == NewAccount(row.key, row.agentId, row.limit)
    case Settle(op, companyId, id) =>
      // An uncommitted reservation is invisible; a settlement that writes the row waits for its lock.
      && (id in s.db.reservations ==> !InFlight(s, id))
      && (ApplySettlement(s.db, op, companyId, id).0.accounts != s.db.accounts ==>
            s.db.reservations[id].accountId !in s.owner)
  }

  function Goto(s: System, c: ClientId, next: Client): System {
    s.(clients := s.clients[c := next])
  }

  function Unlock(s: System, c: ClientId, acc: Id, next: Client): System {
    s.(owner := s.owner - {acc}, clients := s.clients[c := next])
  }

  function AddAccount(db: State, row: Account): State {
    db.(accounts := db.accounts[db.nextId := row], nextId := db.nextId + 1)
  }

  function Apply(s: System, e: Event): System
    requires Enabled(s, e)
  {
    match e
    case Begin(c, input) => Goto(s, c, Finding(input))
    case Find(c, found) =>
      var input := s.clients[c].input;
      Goto(s, c, if found.Some? then Locking(input, found.value) else Creating(input))
    case Create(c) =>
      var input := s.clients[c].input;
      if Conflicts(s.db, input.key) then Goto(s, c, ReReading(input))
      else Goto(s.(db := AddAccount(s.db, NewAccount(input.key, input.agentId, None))), c, Locking(input, s.db.nextId))
    case ReRead(c, found) =>
      var input := s.clients[c].input;
      Goto(s, c, if found.Some? then Locking(input, found.value) else Done(Err(INTERNAL_ERROR)))
    case Lock(c) =>
      var Locking(input, acc) := s.clients[c];
      if acc in s.db.accounts then
        s.(owner := s.owner[acc := c], clients := s.clients[c := Checking(input, acc, s.db.accounts[acc])])
      else Goto(s, c, Done(Err(INTERNAL_ERROR)))
    case Check(c) =>
      var Checking(input, acc, snap) := s.clients[c];
      if Exceeds(snap, input.amount) then Unlock(s, c, acc, Done(Err(POLICY_VIOLATION)))
      else Goto(s, c, Inserting(input, acc, snap))
    case Insert(c) =>
      var Inserting(input, acc, snap) := s.clients[c];
      var res := s.db.nextId;
      Goto(s.(db := s.db.(reservations := s.db.reservations[res := NewReservation(input, acc)], nextId := res + 1)),
           c, Updating(input, acc, snap, res))
    case Update(c) =>
      // The update writes only the reserved total, computed from the row that was read.
      var Updating(input, acc, snap, res) := s.clients[c];
      var row := s.db.accounts[acc].(reserved := snap.reserved + input.amount);
      Goto(s.(db := s.db.(accounts := s.db.accounts[acc := row])), c, Finishing(input, acc, snap, res))
    case Finish(c) =>
      Unlock(s, c, s.clients[c].acc, Done(Ok(s.clients[c].res)))
    case RollBack(c) =>
      var client := s.clients[c];
      var db1 := if client.HasInserted() then s.db.(reservations := s.db.reservations - {client.res}) else s.db;
      var db2 := if client.Finishing? then db1.(accounts := db1.accounts[client.acc := client.snap]) else db1;
      Unlock(s.(db := db2), c, client.acc, Done(Err(INTERNAL_ERROR)))
    case Open(row) => if Conflicts(s.db, row.key) then s else s.(db := AddAccount(s.db, row))
    case Settle(op, companyId, id) => s.(db := ApplySettlement(s.db, op, companyId, id).0)
  }

  // ------------------------------------------------------------- committed view

  /** The transaction that locks row `a`, once it has inserted its reservation. */
  function Flight(s: System, a: Id): Option<Client> {
    if a in s.owner && s.owner[a] in s.clients && s.clients[s.owner[a]].HasInserted()
    then Some(s.clients[s.owner[a]]) else None
  }

  predicate Hides(flight: Option<Client>, r: Id) {
    flight.Some? && flight.value.HasInserted() && flight.value.res == r
  }

  function Committed(row: Account, flight: Option<Client>): Account {
    if flight.Some? && flight.value.Finishing? then flight.value.snap else row
  }

  /** The reservation was inserted by a transaction that still holds its account's lock. */
  predicate InFlight(s: System, r: Id)
    requires r in s.db.reservations
  {
    Hides(Flight(s, s.db.reservations[r].accountId), r)
  }

  /** The row as others see it: an uncommitted update does not show. */
  function CommittedRow(s: System, a: Id): Account
    requires a in s.db.accounts
  {
    Committed(s.db.accounts[a], Flight(s, a))
  }

  function View(s: System): State {
    State(
      map a | a in s.db.accounts :: CommittedRow(s, a),
      map r | r in s.db.reservations && !InFlight(s, r) :: s.db.reservations[r],
      s.db.nextId)
  }

  /** The atomic step the view takes at an event. */
  function Effect(s: System, e: Event, v: State): State
    requires Enabled(s, e)
    requires e.Finish? ==> s.clients[e.c].acc in v.accounts
  {
    match e
    case Create(c) =>
      var input := s.clients[c].input;
      if Conflicts(s.db, input.key) then v else AddAccount(v, NewAccount(input.key, input.agentId, None))
    case Open(row) => if Conflicts(s.db, row.key) then v else AddAccount(v, row)
    case Insert(c) => v.(nextId := v.nextId + 1)
    case Finish(c) => ReserveAs(v, s.clients[c].input, s.clients[c].acc, s.clients[c].res)
    case Settle(op, companyId, id) => ApplySettlement(v, op, companyId, id).0
    case _ => v
  }

  // ------------------------------------------------------------------ invariant

  /** A row lock and the client that holds it name each other. */
  ghost predicate LocksOk(s: System) {
    && (forall c :: c in s.clients && s.clients[c].HoldsLock() ==> s.clients[c].acc in s.owner && s.owner[s.clients[c].acc] == c)
    && (forall a :: a in s.owner ==> s.owner[a] in s.clients && s.clients[s.owner[a]].HoldsLock() && s.clients[s.owner[a]].acc == a)
  }

  /** What each client knows: a locked row is as the client read it until it writes it. */
  ghost predicate ClientOk(s: System, c: ClientId)
    requires c in s.clients
  {
    var k := s.clients[c];
    && (k.Locking? ==> k.acc in s.db.accounts)
    && (k.HoldsLock() ==>
          && k.acc in s.db.accounts
          && s.db.accounts[k.acc] == (if k.Finishing? then k.snap.(reserved := k.snap.reserved + k.input.amount) else k.snap)
          && (!k.Checking? ==> !Exceeds(k.snap, k.input.amount)))
    && (k.HasInserted() ==>
          && k.res in s.db.reservations && s.db.reservations[k.res] == NewReservation(k.input, k.acc))
  }

  ghost predicate Inv(s: System) {
    && Formed(s.db)
    && LocksOk(s)
    && (forall c :: c in s.clients ==> ClientOk(s, c))
  }

  lemma BeginKeepsInv(s: System, e: Event)
    requires Inv(s) && Enabled(s, e) && e.Begin?
    ensures Inv(Apply(s, e))
  {
    GotoKeepsInv(s, e.c, Finding(e.input));
  }

  /** A client that holds no lock may move to any other such place. */
  lemma GotoKeepsInv(s: System, c: ClientId, next: Client)
    requires Inv(s) && (c in s.clients ==> !s.clients[c].HoldsLock())
    requires !next.HoldsLock() && (next.Locking? ==> next.acc in s.db.accounts)
    ensures Inv(Goto(s, c, next))
  {
    var s' := Goto(s, c, next);
    forall d | d in s'.clients ensures ClientOk(s', d) {
      assert d != c ==> ClientOk(s, d);
    }
  }

  lemma FindKeepsInv(s: System, e: Event)
    requires Inv(s) && Enabled(s, e) && (e.Find? || e.ReRead?)
    ensures Inv(Apply(s, e))
  {
    var input := s.clients[e.c].input;
    if e.found.Some? {
      GotoKeepsInv(s, e.c, Locking(input, e.found.value));
    } else {
      GotoKeepsInv(s, e.c, if e.Find? then Creating(input) else Done(Err(INTERNAL_ERROR)));
    }
  }

  lemma AddingKeepsInv(s: System, row: Account)
    requires Inv(s)
    ensures Inv(s.(db := AddAccount(s.db, row)))
  {
    var s' := s.(db := AddAccount(s.db, row));
    forall c | c in s'.clients ensures ClientOk(s', c) {
      assert ClientOk(s, c);
    }
  }

  lemma OpeningKeepsInv(s: System, e: Event)
    requires Inv(s) && Enabled(s, e) && (e.Create? || e.Open?)
    ensures Inv(Apply(s, e))
  {
    match e
    case Open(row) => AddingKeepsInv(s, row);
    case Create(c) =>
      var input := s.clients[c].input;
      if Conflicts(s.db, input.key) {
        GotoKeepsInv(s, c, ReReading(input));
      } else {
        var row := NewAccount(input.key, input.agentId, None);
        AddingKeepsInv(s, row);
        GotoKeepsInv(s.(db := AddAccount(s.db, row)), c, Locking(input, s.db.nextId));
      }
  }

  lemma LockKeepsInv(s: System, e: Event)
    requires Inv(s) && Enabled(s, e) && e.Lock?
    ensures Inv(Apply(s, e))
  {
  }

  lemma UnlockKeepsInv(s: System, c: ClientId, next: Client)
    requires Inv(s) && c in s.clients && s.clients[c].HoldsLock() && next.Done?
    ensures Inv(Unlock(s, c, s.clients[c].acc, next))
  {
    var s' := Unlock(s, c, s.clients[c].acc, next);
    forall d | d in s'.clients ensures ClientOk(s', d) {
      assert d != c ==> ClientOk(s, d);
    }
  }

  /** A client that holds a lock keeps it when it moves on. */
  lemma AdvanceKeepsInv(s: System, c: ClientId, next: Client)
    requires Inv(s) && c in s.clients && s.clients[c].HoldsLock() && next.HoldsLock() && next.acc == s.clients[c].acc
    requires ClientOk(Goto(s, c, next), c)
    ensures Inv(Goto(s, c, next))
  {
    var s' := Goto(s, c, next);
    forall d | d in s'.clients ensures ClientOk(s', d) {
      assert d != c ==> ClientOk(s, d);
    }
  }

  lemma CheckKeepsInv(s: System, e: Event)
    requires Inv(s) && Enabled(s, e) && e.Check?
    ensures Inv(Apply(s, e))
  {
    var Checking(input, acc, snap) := s.clients[e.c];
    assert ClientOk(s, e.c);
    if Exceeds(snap, input.amount) {
      UnlockKeepsInv(s, e.c, Done(Err(POLICY_VIOLATION)));
    } else {
      AdvanceKeepsInv(s, e.c, Inserting(input, acc, snap));
    }
  }

  lemma FinishKeepsInv(s: System, e: Event)
    requires Inv(s) && Enabled(s, e) && e.Finish?
    ensures Inv(Apply(s, e))
  {
    assert ClientOk(s, e.c);
    UnlockKeepsInv(s, e.c, Done(Ok(s.clients[e.c].res)));
  }

  lemma InsertKeepsInv(s: System, e: Event)
    requires Inv(s) && Enabled(s, e) && e.Insert?
    ensures Inv(Apply(s, e))
  {
  }

  lemma UpdateKeepsInv(s: System, e: Event)
    requires Inv(s) && Enabled(s, e) && e.Update?
    ensures Inv(Apply(s, e))
  {
  }

  lemma RollBackKeepsInv(s: System, e: Event)
    requires Inv(s) && Enabled(s, e) && e.RollBack?
    ensures Inv(Apply(s, e))
  {
    var s' := Apply(s, e);
    assert ClientOk(s, e.c);
    forall d | d in s.clients && d != e.c ensures ClientOk(s', d) {
      assert ClientOk(s, d);
      assert s.clients[d].HoldsLock() ==> s.clients[d].acc != s.clients[e.c].acc;
    }
  }

  lemma SettleKeepsInv(s: System, e: Event)
    requires Inv(s) && Enabled(s, e) && e.Settle?
    ensures Inv(Apply(s, e))
  {
    var s' := Apply(s, e);
    forall c | c in s.clients ensures ClientOk(s', c) {
      assert ClientOk(s, c);
      assert s.clients[c].HasInserted() ==> InFlight(s, s.clients[c].res);
    }
  }

  lemma ApplyKeepsInv(s: System, e: Event)
    requires Inv(s) && Enabled(s, e)
    ensures Inv(Apply(s, e))
  {
    match e
    case Begin(_, _) => BeginKeepsInv(s, e);
    case Find(_, _) | ReRead(_, _) => FindKeepsInv(s, e);
    case Create(_) | Open(_) => OpeningKeepsInv(s, e);
    case Lock(_) => LockKeepsInv(s, e);
    case Check(_) => CheckKeepsInv(s, e);
    case Finish(_) => FinishKeepsInv(s, e);
    case Insert(_) => InsertKeepsInv(s, e);
    case Update(_) => UpdateKeepsInv(s, e);
    case RollBack(_) => RollBackKeepsInv(s, e);
    case Settle(_, _, _) => SettleKeepsInv(s, e);
  }

  // ----------------------------------------------------------------- refinement

  /** `v` is the committed view of `s`, row by row. */
  ghost predicate Shows(s: System, v: State) {
    && v.nextId == s.db.nextId
    && (forall a :: a in v.accounts <==> a in s.db.accounts)
    && (forall a :: a in v.accounts ==> v.accounts[a] == CommittedRow(s, a))
    && (forall r :: r in v.reservations <==> r in s.db.reservations && !InFlight(s, r))
    && (forall r :: r in v.reservations ==> v.reservations[r] == s.db.reservations[r])
  }

  lemma ShowsIsView(s: System, v: State)
    ensures Shows(s, v) <==> v == View(s)
  {
    if Shows(s, v) {
      assert v.accounts == View(s).accounts;
      assert v.reservations == View(s).reservations;
    }
  }

  /** An event under which no transaction enters or leaves flight. */
  ghost predicate SameFlights(s: System, s': System) {
    forall a :: Flight(s', a) == Flight(s, a)
  }

  lemma QuietEventsKeepFlights(s: System, e: Event)
    requires LocksOk(s) && Enabled(s, e)
    requires e.Begin? || e.Find? || e.Create? || e.ReRead? || e.Open? || e.Settle?
    ensures SameFlights(s, Apply(s, e))
  {
    assert Apply(s, e).owner == s.owner;
  }

  lemma LockKeepsFlights(s: System, e: Event)
    requires LocksOk(s) && Enabled(s, e) && (e.Lock? || e.Check? || (e.RollBack? && !s.clients[e.c].HasInserted()))
    ensures SameFlights(s, Apply(s, e))
  {
  }

  /** Only the client's own row changes flight. */
  lemma OwnFlight(s: System, e: Event)
    requires LocksOk(s) && Enabled(s, e)
    requires e.Insert? || e.Update? || e.Finish? || e.RollBack?
    ensures forall a :: a != s.clients[e.c].acc ==> Flight(Apply(s, e), a) == Flight(s, a)
    ensures Flight(s, s.clients[e.c].acc) == if s.clients[e.c].HasInserted() then Some(s.clients[e.c]) else None
    ensures var c' := Apply(s, e).clients[e.c];
      Flight(Apply(s, e), s.clients[e.c].acc) == if c'.HasInserted() then Some(c') else None
  {
  }

  lemma SameTablesShowSame(s: System, s': System, v: State)
    requires Shows(s, v) && SameFlights(s, s') && s'.db == s.db
    ensures Shows(s', v)
  {
  }

  lemma AddedAccountShows(s: System, s': System, v: State, row: Account)
    requires Shows(s, v) && SameFlights(s, s') && s'.db == AddAccount(s.db, row) && s.db.nextId !in s.owner
    requires s.db.nextId !in s.db.accounts
    ensures Shows(s', AddAccount(v, row))
  {
  }

  lemma InsertShows(s: System, c: ClientId, v: State)
    requires Formed(s.db) && LocksOk(s) && Enabled(s, Insert(c)) && Shows(s, v)
    ensures Shows(Apply(s, Insert(c)), Effect(s, Insert(c), v))
  {
    OwnFlight(s, Insert(c));
  }

  lemma UpdateShows(s: System, c: ClientId, v: State)
    requires LocksOk(s) && Enabled(s, Update(c)) && ClientOk(s, c) && Shows(s, v)
    ensures Shows(Apply(s, Update(c)), v)
  {
    OwnFlight(s, Update(c));
  }

  lemma FinishShows(s: System, e: Event, v: State)
    requires Inv(s) && Enabled(s, e) && e.Finish? && Shows(s, v)
    ensures s.clients[e.c].acc in v.accounts
    ensures Shows(Apply(s, e), Effect(s, e, v))
  {
    var s' := Apply(s, e);
    var Finishing(input, acc, snap, res) := s.clients[e.c];
    OwnFlight(s, e);
    assert ClientOk(s, e.c);
    assert v.accounts[acc] == snap;
    forall r | r in s.db.reservations ensures InFlight(s', r) == (InFlight(s, r) && r != res) {
      if s.db.reservations[r].accountId == acc {
        assert Flight(s', acc) == None;
      }
    }
    assert ReserveAs(v, input, acc, res).accounts[acc] == s.db.accounts[acc];
  }

  lemma RollBackShows(s: System, c: ClientId, v: State)
    requires LocksOk(s) && Enabled(s, RollBack(c)) && ClientOk(s, c) && Shows(s, v)
    ensures Shows(Apply(s, RollBack(c)), v)
  {
    var s' := Apply(s, RollBack(c));
    OwnFlight(s, RollBack(c));
    forall r | r in s'.db.reservations ensures InFlight(s', r) == InFlight(s, r) {
    }
    forall a | a in s.db.accounts ensures CommittedRow(s', a) == CommittedRow(s, a) {
    }
  }

  lemma SettleShows(s: System, e: Event, v: State)
    requires Inv(s) && Enabled(s, e) && e.Settle? && Shows(s, v)
    ensures Shows(Apply(s, e), Effect(s, e, v))
  {
    QuietEventsKeepFlights(s, e);
    if e.id in s.db.reservations {
      var r, dReserved, dCommitted := SettlementIsLocal(s.db, v, e.op, e.companyId, e.id);
      SettledShows(s, Apply(s, e), v, e.id, r, dReserved, dCommitted);
    } else {
      SameTablesShowSame(s, Apply(s, e), v);
    }
  }

  function Shifted(row: Account, dReserved: int, dCommitted: int): Account {
    row.(reserved := row.reserved + dReserved, committed := row.committed + dCommitted)
  }

  lemma SettledShows(s: System, s': System, v: State, id: Id, r: Reservation, dReserved: int, dCommitted: int)
    requires Shows(s, v) && SameFlights(s, s') && id in v.reservations
    requires r == s.db.reservations[id].(status := r.status) && r.accountId in s.db.accounts
    requires s'.db.reservations == s.db.reservations[id := r] && s'.db.nextId == s.db.nextId
    requires s'.db.accounts == s.db.accounts[r.accountId := Shifted(s.db.accounts[r.accountId], dReserved, dCommitted)]
    requires s'.db.accounts == s.db.accounts || r.accountId !in s.owner
    ensures Shows(s', State(
      v.accounts[r.accountId := Shifted(v.accounts[r.accountId], dReserved, dCommitted)],
      v.reservations[id := r], v.nextId))
  {
    var a := r.accountId;
    if s'.db.accounts == s.db.accounts {
      assert s'.db.accounts[a] == s.db.accounts[a];
    } else {
      assert Flight(s, a) == None;
    }
  }

  lemma UnseenEventsShow(s: System, e: Event, v: State)
    requires Inv(s) && Enabled(s, e) && Shows(s, v) && (e.Begin? || e.Find? || e.ReRead? || e.Lock? || e.Check?)
    ensures Shows(Apply(s, e), v)
  {
    if e.Lock? || e.Check? {
      LockKeepsFlights(s, e);
    } else {
      QuietEventsKeepFlights(s, e);
    }
    SameTablesShowSame(s, Apply(s, e), v);
  }

  lemma OpeningShows(s: System, e: Event, v: State)
    requires Inv(s) && Enabled(s, e) && Shows(s, v) && (e.Create? || e.Open?)
    ensures Shows(Apply(s, e), Effect(s, e, v))
  {
    QuietEventsKeepFlights(s, e);
    if Apply(s, e).db == s.db {
      SameTablesShowSame(s, Apply(s, e), v);
    } else {
      assert forall a :: a in s.owner ==> ClientOk(s, s.owner[a]);
      AddedAccountShows(s, Apply(s, e), v, Apply(s, e).db.accounts[s.db.nextId]);
    }
  }

  lemma WritesShow(s: System, e: Event, v: State)
    requires Inv(s) && Enabled(s, e) && Shows(s, v) && (e.Insert? || e.Update? || e.Finish? || e.RollBack?)
    ensures e.Finish? ==> s.clients[e.c].acc in v.accounts
    ensures Shows(Apply(s, e), Effect(s, e, v))
  {
    assert ClientOk(s, e.c);
    match e
    case Insert(c) => InsertShows(s, c, v);
    case Update(c) => UpdateShows(s, c, v);
    case Finish(c) => FinishShows(s, e, v);
    case RollBack(c) => RollBackShows(s, c, v);
  }

  /** The amount fits the committed row, and the reservation is new to the committed view. */
  ghost predicate IsReady(v: State, k: Client)
    requires k.Finishing? && k.acc in v.accounts
  {
    !Exceeds(v.accounts[k.acc], k.input.amount) && k.res !in v.reservations && k.res < v.nextId
  }

  lemma FinishingIsReady(s: System, c: ClientId)
    requires Inv(s) && Enabled(s, Finish(c)) && s.clients[c].acc in View(s).accounts
    ensures IsReady(View(s), s.clients[c])
  {
    assert ClientOk(s, c) && InFlight(s, s.clients[c].res);
  }

  /** Every event is, on what others can see, one atomic ledger step or none. */
  lemma EventRefinesLedger(s: System, e: Event)
    requires Inv(s) && Enabled(s, e)
    ensures e.Finish? ==> s.clients[e.c].acc in View(s).accounts
    ensures e.Finish? ==> IsReady(View(s), s.clients[e.c])
    ensures View(Apply(s, e)) == Effect(s, e, View(s))
  {
    var v := View(s);
    ShowsIsView(s, v);
    if e.Finish? {
      assert ClientOk(s, e.c) && s.clients[e.c].acc in v.accounts;
      FinishingIsReady(s, e.c);
    }
    if e.Settle? {
      SettleShows(s, e, v);
    } else if e.Create? || e.Open? {
      OpeningShows(s, e, v);
    } else if e.Insert? || e.Update? || e.Finish? || e.RollBack? {
      WritesShow(s, e, v);
    } else {
      UnseenEventsShow(s, e, v);
    }
    ShowsIsView(Apply(s, e), Effect(s, e, v));
  }

  // ----------------------------------------------------------------------- runs

  ghost predicate Legal(s: System, events: seq<Event>)
    decreases |events|
  {
    events == [] || (Enabled(s, events[0]) && Legal(Apply(s, events[0]), events[1..]))
  }

  ghost function Run(s: System, events: seq<Event>): System
    requires Legal(s, events)
    decreases |events|
  {
    if events == [] then s else Run(Apply(s, events[0]), events[1..])
  }

  lemma EffectIsSound(s: System, e: Event)
    requires Inv(s) && Enabled(s, e) && Sound(View(s))
    requires e.Finish? ==> s.clients[e.c].acc in View(s).accounts
    ensures Sound(Effect(s, e, View(s)))
  {
    var v := View(s);
    match e
    case Create(c) => NewAccountIsSound(v, NewAccount(s.clients[c].input.key, s.clients[c].input.agentId, None));
    case Open(row) => NewAccountIsSound(v, row);
    case Insert(_) => BurnedIdIsSound(v);
    case Finish(c) =>
      FinishingIsReady(s, c);
      ReserveAsIsSound(v, s.clients[c].input, s.clients[c].acc, s.clients[c].res);
    case Settle(op, companyId, id) => SettlementIsSound(v, op, companyId, id);
    case _ =>
  }

  lemma {:induction false} RunIsSound(s: System, events: seq<Event>)
    requires Inv(s) && Sound(View(s)) && Legal(s, events)
    ensures Inv(Run(s, events)) && Sound(View(Run(s, events)))
    decreases |events|
  {
    if events != [] {
      ApplyKeepsInv(s, events[0]);
      EventRefinesLedger(s, events[0]);
      EffectIsSound(s, events[0]);
      RunIsSound(Apply(s, events[0]), events[1..]);
    }
  }

  /**
   * Whatever the interleaving and wherever it stops: no row as written exceeds its limit,
   * and a row nobody has locked equals the sums over its reservations.
   */
  lemma {:induction false} InterleavingsKeepLimitAndSums(events: seq<Event>, a: Id)
    requires Legal(START, events) && a in Run(START, events).db.accounts
    ensures var s := Run(START, events);
      && (s.db.accounts[a].limit.Some? ==> s.db.accounts[a].reserved + s.db.accounts[a].committed <= s.db.accounts[a].limit.value)
      && (a !in s.owner ==>
            && s.db.accounts[a].reserved == SumAt(s.db.reservations, a, {RESERVED, UNKNOWN})
            && s.db.accounts[a].committed == SumAt(s.db.reservations, a, {COMMITTED}))
  {
    assert View(START) == EMPTY;
    RunIsSound(START, events);
    RowsAsWritten(Run(START, events), View(Run(START, events)), a);
  }

  lemma {:induction false} RowsAsWritten(s: System, v: State, a: Id)
    requires Inv(s) && v == View(s) && Sound(v) && a in s.db.accounts
    ensures WithinLimit(s.db.accounts[a])
    ensures a !in s.owner ==>
      && s.db.accounts[a].reserved == SumAt(s.db.reservations, a, {RESERVED, UNKNOWN})
      && s.db.accounts[a].committed == SumAt(s.db.reservations, a, {COMMITTED})
  {
    ShowsIsView(s, v);
    assert Balanced(v, a) && WithinLimit(v.accounts[a]);
    if a in s.owner {
      assert ClientOk(s, s.owner[a]);
    } else {
      assert Flight(s, a) == None;
      SumAtAgrees(v.reservations, s.db.reservations, a, {RESERVED, UNKNOWN});
      SumAtAgrees(v.reservations, s.db.reservations, a, {COMMITTED});
    }
  }

  // ------------------------------------------------------------ one bucket per key

  ghost predicate OneRowPerNetworkKey(db: State) {
    forall a, b :: a != b && a in db.accounts && b in db.accounts && db.accounts[a].key == db.accounts[b].key ==>
      db.accounts[a].key.network.None?
  }

  lemma EventKeepsKeys(s: System, e: Event)
    requires Inv(s) && Enabled(s, e) && OneRowPerNetworkKey(s.db)
    ensures OneRowPerNetworkKey(Apply(s, e).db)
  {
    var db' := Apply(s, e).db;
    match e
    case Update(c) => assert ClientOk(s, c);
    case RollBack(c) => assert ClientOk(s, c);
    case Settle(op, companyId, id) =>
      if id in s.db.reservations {
        var _, _, _ := SettlementIsLocal(s.db, s.db, op, companyId, id);
      }
    case _ =>
  }

  lemma {:induction false} RunKeepsKeys(s: System, events: seq<Event>)
    requires Inv(s) && OneRowPerNetworkKey(s.db) && Legal(s, events)
    ensures OneRowPerNetworkKey(Run(s, events).db)
    decreases |events|
  {
    if events != [] {
      ApplyKeepsInv(s, events[0]);
      EventKeepsKeys(s, events[0]);
      RunKeepsKeys(Apply(s, events[0]), events[1..]);
    }
  }

  /**
   * Racing clients can split a bucket into two rows exactly when its key names no network:
   * the unique index is what stops the second row, and it does not compare nulls.
   */
  lemma BucketCanSplitIffNoNetwork(input: ReserveInput)
    ensures (exists events, a, b :: SplitsAfter(events, input.key, a, b)) <==> input.key.network.None?
  {
    if events, a, b :| SplitsAfter(events, input.key, a, b) {
      RunKeepsKeys(START, events);
    }
    if input.key.network.None? {
      var events := TwoCreators(input);
      assert SplitsAfter(events, input.key, 0, 1);
    }
  }

  /** Two clients that both looked before either created. */
  lemma TwoCreators(input: ReserveInput) returns (events: seq<Event>)
    requires input.key.network.None?
    ensures SplitsAfter(events, input.key, 0, 1)
  {
    events := [Begin(0, input), Begin(1, input), Find(0, None), Find(1, None), Create(0), Create(1)];
    var s1 := Apply(START, events[0]);
    var s2 := Apply(s1, events[1]);
    var s3 := Apply(s2, events[2]);
    var s4 := Apply(s3, events[3]);
    var s5 := Apply(s4, events[4]);
    var s6 := Apply(s5, events[5]);
    RunOfSix(START, events, s1, s2, s3, s4, s5, s6);
    assert Splits(s6.db, input.key, 0, 1);
  }

  predicate Splits(db: State, key: AccountKey, a: Id, b: Id) {
    a != b && a in db.accounts && b in db.accounts && db.accounts[a].key == key && db.accounts[b].key == key
  }

  ghost predicate SplitsAfter(events: seq<Event>, key: AccountKey, a: Id, b: Id) {
    Legal(START, events) && Splits(Run(START, events).db, key, a, b)
  }

  lemma {:induction false} RunOfSix(s: System, e: seq<Event>, s1: System, s2: System, s3: System, s4: System, s5: System, s6: System)
    requires |e| == 6
    requires Enabled(s, e[0]) && s1 == Apply(s, e[0])
    requires Enabled(s1, e[1]) && s2 == Apply(s1, e[1])
    requires Enabled(s2, e[2]) && s3 == Apply(s2, e[2])
    requires Enabled(s3, e[3]) && s4 == Apply(s3, e[3])
    requires Enabled(s4, e[4]) && s5 == Apply(s4, e[4])
    requires Enabled(s5, e[5]) && s6 == Apply(s5, e[5])
    ensures Legal(s, e) && Run(s, e) == s6
  {
    assert Legal(s6, e[6..]);
    assert Legal(s5, e[5..]) && Run(s5, e[5..]) == s6 by { assert e[5..][1..] == e[6..]; }
    assert Legal(s4, e[4..]) && Run(s4, e[4..]) == s6 by { assert e[4..][1..] == e[5..]; }
    assert Legal(s3, e[3..]) && Run(s3, e[3..]) == s6 by { assert e[3..][1..] == e[4..]; }
    assert Legal(s2, e[2..]) && Run(s2, e[2..]) == s6 by { assert e[2..][1..] == e[3..]; }
    assert Legal(s1, e[1..]) && Run(s1, e[1..]) == s6 by { assert e[1..][1..] == e[2..]; }
    assert e[0..] == e;
  }

  // -------------------------------------------------------------- a call on its own

  lemma {:induction false} OneMore(s: System, events: seq<Event>, e: Event)
    requires Legal(s, events) && Enabled(Run(s, events), e)
    ensures Legal(s, events + [e]) && Run(s, events + [e]) == Apply(Run(s, events), e)
    decreases |events|
  {
    if events == [] {
      assert [e][1..] == [];
    } else {
      OneMore(Apply(s, events[0]), events[1..], e);
      assert (events + [e])[1..] == events[1..] + [e];
    }
  }

  /** A client whose events nothing interrupts makes one whole reservation, and is answered as it. */
  lemma AloneIsReserve(db: State, input: ReserveInput) returns (events: seq<Event>)
    requires Ledger.Inv(db)
    ensures Legal(System(db, map[], map[]), events)
    ensures Run(System(db, map[], map[]), events) == System(Reserve(db, input).0, map[], map[0 := Done(Reserve(db, input).1)])
  {
    var start := System(db, map[], map[]);
    var found := FindAccount(db, input.key);
    OneMore(start, [], Begin(0, input));
    events := [] + [Begin(0, input)];
    OneMore(start, events, Find(0, found));
    events := events + [Find(0, found)];
    if found.None? {
      OneMore(start, events, Create(0));
      events := events + [Create(0)];
    }
    var (db1, a) := EnsureAccount(db, input.key, input.agentId, None);
    assert Run(start, events) == System(db1, map[], map[0 := Locking(input, a)]);
    events := AloneFromLock(db1, input, a, start, events);
  }

  lemma AloneFromLock(db: State, input: ReserveInput, a: Id, start: System, before: seq<Event>) returns (events: seq<Event>)
    requires a in db.accounts && Legal(start, before) && Run(start, before) == System(db, map[], map[0 := Locking(input, a)])
    ensures Legal(start, events)
    ensures Run(start, events) == System(ReserveOn(db, input, a).0, map[], map[0 := Done(ReserveOn(db, input, a).1)])
  {
    OneMore(start, before, Lock(0));
    events := before + [Lock(0)];
    OneMore(start, events, Check(0));
    events := events + [Check(0)];
    if Exceeds(db.accounts[a], input.amount) {
      assert map[a := 0] - {a} == map[];
    } else {
      events := AloneFromInsert(db, input, a, start, events);
    }
  }

  lemma AloneFromInsert(db: State, input: ReserveInput, a: Id, start: System, before: seq<Event>) returns (events: seq<Event>)
    requires a in db.accounts && !Exceeds(db.accounts[a], input.amount) && Legal(start, before)
    requires Run(start, before) == System(db, map[a := 0], map[0 := Inserting(input, a, db.accounts[a])])
    ensures Legal(start, events)
    ensures Run(start, events) == System(ReserveOn(db, input, a).0, map[], map[0 := Done(ReserveOn(db, input, a).1)])
  {
    OneMore(start, before, Insert(0));
    events := before + [Insert(0)];
    OneMore(start, events, Update(0));
    events := events + [Update(0)];
    OneMore(start, events, Finish(0));
    events := events + [Finish(0)];
    assert map[a := 0] - {a} == map[];
  }
}
