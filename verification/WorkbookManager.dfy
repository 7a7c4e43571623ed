/** Workbooks lend capital to runs and take the settlement back; every move is an event. */
module Workbooks {
  import opened Domain
  import opened Orders
  import opened Ledger

  datatype Event = CreatedWith(amount: int) | CapitalAdded(amount: int) | ActivityBorrow(amount: int)
    | ActivityReturn(amount: int)

  datatype Book = Book(user: nat, name: string, main: int, available: int, borrowed: int, deletedAt: Timestamp,
    events: seq<Event>)

  datatype Borrow = Borrow(workbook: nat, original: int, returned: bool)

  datatype BooksState = BooksState(books: map<nat, Book>, borrows: map<nat, Borrow>, nextWorkbook: nat, nextBorrow: nat)

  const NO_BOOKS := BooksState(map[], map[], 1, 1)

  function CreateBook(s: BooksState, user: nat, name: string, initial: int): BooksState {
    var capital := Max(0, initial);
    s.(books := s.books[s.nextWorkbook := Book(user, name, capital, capital, 0, 0, [CreatedWith(capital)])],
       nextWorkbook := s.nextWorkbook + 1)
  }

  function BookError(s: BooksState, id: nat): Option<string> {
    if id !in s.books then Some("workbook not found")
    else if s.books[id].deletedAt != 0 then Some("workbook deleted")
    else None
  }

  function AddError(s: BooksState, id: nat, amount: int): Option<string> {
    if BookError(s, id).Some? then BookError(s, id)
    else if amount <= 0 then Some("invalid amount") else None
  }

  function AddCapital(s: BooksState, id: nat, amount: int): BooksState {
    if AddError(s, id, amount).Some? then s
    else
      var b := s.books[id];
      s.(books := s.books[id :=
        b.(main := b.main + amount, available := b.available + amount, events := b.events + [CapitalAdded(amount)])])
  }

  function BorrowError(s: BooksState, id: nat, amount: int): Option<string> {
    if AddError(s, id, amount).Some? then AddError(s, id, amount)
    else if s.books[id].available < amount then Some("insufficient funds") else None
  }

  function BorrowCapital(s: BooksState, id: nat, amount: int): BooksState {
    if BorrowError(s, id, amount).Some? then s
    else
      var b := s.books[id];
      s.(books := s.books[id :=
        b.(available := b.available - amount, borrowed := b.borrowed + amount,
          events := b.events + [ActivityBorrow(amount)])],
         borrows := s.borrows[s.nextBorrow := Borrow(id, amount, false)],
         nextBorrow := s.nextBorrow + 1)
  }

  /** settled says whether the borrow's ledger, if there is one, has no allocation left. */
  function ReturnError(s: BooksState, id: nat, borrow: nat, amount: int, settled: bool): Option<string> {
    if id !in s.books then Some("workbook not found")
    else if borrow !in s.borrows || s.borrows[borrow].workbook != id then Some("borrow not found")
    else if s.borrows[borrow].returned then Some("already returned")
    else if amount < 0 then Some("invalid amount")
    else if !settled then Some("containers still allocated")
    else None
  }

  function ReturnCapital(s: BooksState, id: nat, borrow: nat, amount: int, settled: bool): BooksState {
    if ReturnError(s, id, borrow, amount, settled).Some? then s
    else
      var b, r := s.books[id], s.borrows[borrow];
      s.(books := s.books[id :=
        b.(available := b.available + amount, borrowed := b.borrowed - r.original,
          events := b.events + [ActivityReturn(amount)])],
        borrows := s.borrows[borrow := r.(returned := true)])
  }

  function SoftDelete(s: BooksState, id: nat, now: Timestamp): BooksState {
    if BookError(s, id).Some? then s else s.(books := s.books[id := s.books[id].(deletedAt := now)])
  }

  // ---------------------------------------------------------------- the event list explains the balances

  /** (main, available) obtained by replaying signed events. */
  function Replayed(es: seq<Event>): (int, int) {
    if es == [] then (0, 0)
    else
      var (m, a) := Replayed(es[..|es| - 1]);
      match es[|es| - 1]
      case CreatedWith(x) => (m + x, a + x)
      case CapitalAdded(x) => (m + x, a + x)
      case ActivityBorrow(x) => (m, a - x)
      case ActivityReturn(x) => (m, a + x)
  }

  lemma ReplayMore(es: seq<Event>, e: Event)
    ensures var (m, a) := Replayed(es);
      Replayed(es + [e]) ==
        (m + (if e.CreatedWith? || e.CapitalAdded? then e.amount else 0),
          if e.ActivityBorrow? then a - e.amount else a + e.amount)
  {
    assert (es + [e])[..|es|] == es;
  }

  /** Sum of the originals of the borrows of one workbook that were not returned. */
  ghost function Outstanding(borrows: map<nat, Borrow>, id: nat): int {
    if borrows == map[] then 0
    else
      var k :| k in borrows;
      Owed(borrows[k], id) + Outstanding(borrows - {k}, id)
  }

  function Owed(b: Borrow, id: nat): int {
    if b.workbook == id && !b.returned then b.original else 0
  }

  lemma {:induction false} OutstandingMinus(borrows: map<nat, Borrow>, k: nat, id: nat)
    requires k in borrows
    ensures Outstanding(borrows, id) == Owed(borrows[k], id) + Outstanding(borrows - {k}, id)
    decreases |borrows|
  {
    var x :| x in borrows && Outstanding(borrows, id) == Owed(borrows[x], id) + Outstanding(borrows - {x}, id);
    if x != k {
      OutstandingMinus(borrows - {x}, k, id);
      OutstandingMinus(borrows - {k}, x, id);
      assert borrows - {x} - {k} == borrows - {k} - {x};
    }
  }

  lemma OutstandingSet(borrows: map<nat, Borrow>, k: nat, b: Borrow, id: nat)
    ensures Outstanding(borrows[k := b], id) ==
      Outstanding(borrows, id) + Owed(b, id) - (if k in borrows then Owed(borrows[k], id) else 0)
  {
    OutstandingMinus(borrows[k := b], k, id);
    assert borrows[k := b] - {k} == borrows - {k};
    if k in borrows { OutstandingMinus(borrows, k, id); } else { assert borrows - {k} == borrows; }
  }

  lemma {:induction false} OutstandingNonNegative(borrows: map<nat, Borrow>, id: nat)
    requires forall k :: k in borrows ==> borrows[k].original > 0
    ensures Outstanding(borrows, id) >= 0
    decreases |borrows|
  {
    if borrows != map[] {
      var x :| x in borrows;
      OutstandingMinus(borrows, x, id);
      OutstandingNonNegative(borrows - {x}, id);
    }
  }

  ghost predicate BookOk(s: BooksState, id: nat)
    requires id in s.books
  {
    var b := s.books[id];
    && Replayed(b.events) == (b.main, b.available)
    && b.borrowed == Outstanding(s.borrows, id)
    && b.available >= 0 && b.main >= 0
  }

  /** Balances are the replay of the events, borrowed capital is what is still out, nothing is negative. */
  ghost predicate BooksOk(s: BooksState) {
    && (forall id :: id in s.books ==> BookOk(s, id) && id < s.nextWorkbook)
    && (forall k :: k in s.borrows ==>
      s.borrows[k].original > 0 && s.borrows[k].workbook in s.books && k < s.nextBorrow)
  }

  lemma BorrowedNonNegative(s: BooksState, id: nat)
    requires BooksOk(s) && id in s.books
    ensures s.books[id].borrowed >= 0
  {
    OutstandingNonNegative(s.borrows, id);
  }

  datatype BooksOp =
    | OpCreate(user: nat, name: string, initial: int)
    | OpAdd(id: nat, amount: int)
    | OpBorrow(id: nat, amount: int)
    | OpReturn(id: nat, borrow: nat, amount: int, settled: bool)
    | OpDelete(id: nat, now: Timestamp)

  function Apply(s: BooksState, op: BooksOp): BooksState {
    match op
    case OpCreate(u, n, c) => CreateBook(s, u, n, c)
    case OpAdd(id, a) => AddCapital(s, id, a)
    case OpBorrow(id, a) => BorrowCapital(s, id, a)
    case OpReturn(id, b, a, ok) => ReturnCapital(s, id, b, a, ok)
    case OpDelete(id, t) => SoftDelete(s, id, t)
  }

  lemma {:induction false} NothingOutstanding(borrows: map<nat, Borrow>, id: nat)
    requires forall k :: k in borrows ==> borrows[k].workbook != id
    ensures Outstanding(borrows, id) == 0
    decreases |borrows|
  {
    if borrows != map[] {
      var x :| x in borrows;
      OutstandingMinus(borrows, x, id);
      NothingOutstanding(borrows - {x}, id);
    }
  }

  /** Every workbook operation keeps the books explained by their events. */
  lemma ApplyKeeps(s: BooksState, op: BooksOp)
    requires BooksOk(s)
    ensures BooksOk(Apply(s, op))
  {
    hide Replayed; hide Outstanding;
    match op
    case OpCreate(u, n, c) => CreateBookKeeps(s, u, n, c);
    case OpAdd(id, a) =>
      if AddError(s, id, a).None? { ReplayMore(s.books[id].events, CapitalAdded(a)); }
    case OpBorrow(id, a) => BorrowKeeps(s, id, a);
    case OpReturn(id, b, a, ok) => ReturnKeeps(s, id, b, a, ok);
    case OpDelete(id, t) =>
  }

  lemma CreateBookKeeps(s: BooksState, user: nat, name: string, c: int)
    requires BooksOk(s)
    ensures BooksOk(CreateBook(s, user, name, c))
  {
    hide Replayed; hide Outstanding;
    var e := CreatedWith(Max(0, c));
    ReplayEmpty();
    ReplayMore([], e);
    assert [] + [e] == [e];
    NothingOutstanding(s.borrows, s.nextWorkbook);
  }

  lemma BorrowKeeps(s: BooksState, id: nat, a: int)
    requires BooksOk(s)
    ensures BooksOk(BorrowCapital(s, id, a))
  {
    hide Replayed; hide Outstanding;
    if BorrowError(s, id, a).None? {
      ReplayMore(s.books[id].events, ActivityBorrow(a));
      forall j { OutstandingSet(s.borrows, s.nextBorrow, Borrow(id, a, false), j); }
    }
  }

  lemma ReturnKeeps(s: BooksState, id: nat, b: nat, a: int, settled: bool)
    requires BooksOk(s)
    ensures BooksOk(ReturnCapital(s, id, b, a, settled))
  {
    hide Replayed; hide Outstanding;
    if ReturnError(s, id, b, a, settled).None? {
      ReplayMore(s.books[id].events, ActivityReturn(a));
      forall j { OutstandingSet(s.borrows, b, s.borrows[b].(returned := true), j); }
    }
  }

  lemma ReplayEmpty()
    ensures Replayed([]) == (0, 0)
  {}

  function ApplyAll(ops: seq<BooksOp>): BooksState {
    if ops == [] then NO_BOOKS else Apply(ApplyAll(ops[..|ops| - 1]), ops[|ops| - 1])
  }

  /** Over any sequence of operations: borrowed is the sum of unreturned originals, available and main
      are the signed replay of the events, and none of them is ever negative. */
  lemma {:induction false} BooksAlwaysOk(ops: seq<BooksOp>)
    ensures BooksOk(ApplyAll(ops))
    ensures forall id :: id in ApplyAll(ops).books ==> ApplyAll(ops).books[id].borrowed >= 0
  {
    hide Apply; hide BooksOk;
    if ops == [] {
      NoBooksOk();
    } else {
      BooksAlwaysOk(ops[..|ops| - 1]);
      ApplyKeeps(ApplyAll(ops[..|ops| - 1]), ops[|ops| - 1]);
    }
    forall id | id in ApplyAll(ops).books ensures ApplyAll(ops).books[id].borrowed >= 0 {
      BorrowedNonNegative(ApplyAll(ops), id);
    }
  }

  lemma NoBooksOk()
    ensures BooksOk(NO_BOOKS)
  {}

  class WorkbookManager {
    var books: map<nat, Book>
    var borrows: map<nat, Borrow>
    var ledgers: map<nat, PortfolioLedger>
    var nextWorkbook: nat
    var nextBorrow: nat

    function State(): BooksState
      reads this
    {
      BooksState(books, borrows, nextWorkbook, nextBorrow)
    }

    /** A ledger is opened with every borrow, so no borrow id in use is the next one. */
    ghost predicate Valid()
      reads this
    {
      BooksOk(State()) && ledgers.Keys == borrows.Keys
    }

    constructor ()
      ensures Valid() && State() == NO_BOOKS
    {
      books, borrows, ledgers, nextWorkbook, nextBorrow := map[], map[], map[], 1, 1;
    }

    method Create(user: nat, name: string, initial: int) returns (id: nat)
      requires Valid()
      modifies this
      ensures Valid() && State() == CreateBook(old(State()), user, name, initial) && id == old(nextWorkbook)
      ensures ledgers == old(ledgers)
    {
      hide BooksOk;
      ApplyKeeps(State(), OpCreate(user, name, initial));
      var capital := if initial < 0 then 0 else initial;
      id := nextWorkbook;
      nextWorkbook := nextWorkbook + 1;
      books := books[id := Book(user, name, capital, capital, 0, 0, [CreatedWith(capital)])];
    }

    method Add(id: nat, amount: int) returns (r: OpResult)
      requires Valid()
      modifies this
      ensures Valid() && State() == AddCapital(old(State()), id, amount) && ledgers == old(ledgers)
      ensures var e := AddError(old(State()), id, amount); r == if e.Some? then Failed(e.value) else Done
    {
      hide BooksOk;
      ApplyKeeps(State(), OpAdd(id, amount));
      if id !in books { return Failed("workbook not found"); }
      var b := books[id];
      if b.deletedAt != 0 { return Failed("workbook deleted"); }
      if amount <= 0 { return Failed("invalid amount"); }
      books := books[id := b.(main := b.main + amount, available := b.available + amount,
        events := b.events + [CapitalAdded(amount)])];
      r := Done;
    }

    method BorrowFrom(id: nat, amount: int) returns (r: OpResult, borrow: nat)
      requires Valid()
      modifies this
      ensures Valid() && State() == BorrowCapital(old(State()), id, amount)
      ensures var e := BorrowError(old(State()), id, amount); r == if e.Some? then Failed(e.value) else Done
      ensures r == Done ==>
        borrow == old(nextBorrow) && borrow in ledgers && fresh(ledgers[borrow])
          && ledgers[borrow].State() == Opened(amount)
      ensures r == Done ==> ledgers == old(ledgers)[borrow := ledgers[borrow]]
      ensures r != Done ==> ledgers == old(ledgers)
    {
      hide BooksOk;
      ApplyKeeps(State(), OpBorrow(id, amount));
      borrow := 0;
      if id !in books { return Failed("workbook not found"), 0; }
      var b := books[id];
      if b.deletedAt != 0 { return Failed("workbook deleted"), 0; }
      if amount <= 0 { return Failed("invalid amount"), 0; }
      if b.available < amount { return Failed("insufficient funds"), 0; }
      borrow := nextBorrow;
      nextBorrow := nextBorrow + 1;
      borrows := borrows[borrow := Borrow(id, amount, false)];
      var ledger := new PortfolioLedger(amount);
      ledgers := ledgers[borrow := ledger];
      books := books[id := b.(available := b.available - amount, borrowed := b.borrowed + amount,
        events := b.events + [ActivityBorrow(amount)])];
      r := Done;
    }

    /** Whether the borrow's ledger has no allocation left. */
    ghost predicate LedgerSettled(borrow: nat)
      reads this, ledgers.Values
    {
      borrow in ledgers ==> ledgers[borrow].State().Settled()
    }

    method Return(id: nat, borrow: nat, amount: int) returns (r: OpResult)
      requires Valid()
      modifies this
      ensures Valid() && ledgers == old(ledgers)
      ensures State() == ReturnCapital(old(State()), id, borrow, amount, old(LedgerSettled(borrow)))
      ensures var e := ReturnError(old(State()), id, borrow, amount, old(LedgerSettled(borrow)));
        r == if e.Some? then Failed(e.value) else Done
    {
      hide BooksOk;
      ApplyKeeps(State(), OpReturn(id, borrow, amount, LedgerSettled(borrow)));
      if id !in books { return Failed("workbook not found"); }
      if borrow !in borrows || borrows[borrow].workbook != id { return Failed("borrow not found"); }
      if borrows[borrow].returned { return Failed("already returned"); }
      if amount < 0 { return Failed("invalid amount"); }
      if borrow in ledgers && !(ledgers[borrow].allocatedReal == 0 && ledgers[borrow].paper == 0) {
        return Failed("containers still allocated");
      }
      var b := books[id];
      books := books[id := b.(available := b.available + amount, borrowed := b.borrowed - borrows[borrow].original,
                              events := b.events + [ActivityReturn(amount)])];
      borrows := borrows[borrow := borrows[borrow].(returned := true)];
      r := Done;
    }

    method Delete(id: nat, now: Timestamp) returns (r: OpResult)
      requires Valid()
      modifies this
      ensures Valid() && State() == SoftDelete(old(State()), id, now) && ledgers == old(ledgers)
      ensures r == Done <==> BookError(old(State()), id).None?
    {
      hide BooksOk;
      ApplyKeeps(State(), OpDelete(id, now));
      if id !in books { return Failed("workbook not found"); }
      if books[id].deletedAt != 0 { return Failed("already deleted"); }
      books := books[id := books[id].(deletedAt := now)];
      r := Done;
    }
  }
}
