/** One borrow's ledger: capital split over containers, and positions aggregated per symbol. */
module Ledger {
  import opened Domain
  import opened Orders

  datatype Allocation = Allocation(principal: int, isReal: bool)
  datatype Position = Position(net: nat, avg: int, realized: int)

  datatype LedgerState = LedgerState(
    borrowed: int, available: int, allocatedReal: int, paper: int, realized: int,
    allocs: map<ContainerId, Allocation>,
    positions: map<SymbolId, Position>,
    fills: seq<Fill>)
  {
    function Settlement(): int { borrowed + realized }
    predicate Settled() { allocatedReal == 0 && paper == 0 }
    function Pos(s: SymbolId): Position { if s in positions then positions[s] else Position(0, 0, 0) }
    function Net(s: SymbolId): nat { Pos(s).net }
  }

  function Opened(borrowed: int): LedgerState {
    LedgerState(borrowed, borrowed, 0, 0, 0, map[], map[], [])
  }

  function TakeError(l: LedgerState, id: ContainerId, amount: int, mode: ContainerMode): Option<string> {
    if amount <= 0 then Some("invalid amount")
    else if id in l.allocs then Some("already allocated")
    else if mode == Real && l.available < amount then Some("insufficient funds")
    else None
  }

  function Take(l: LedgerState, id: ContainerId, amount: int, mode: ContainerMode): LedgerState {
    if TakeError(l, id, amount, mode).Some? then l
    else if mode == Real then
      l.(available := l.available - amount, allocatedReal := l.allocatedReal + amount,
        allocs := l.allocs[id := Allocation(amount, true)])
    else
      l.(paper := l.paper + amount, allocs := l.allocs[id := Allocation(amount, false)])
  }

  function CommitError(l: LedgerState, id: ContainerId): Option<string> {
    if id !in l.allocs then Some("not allocated")
    else if l.allocs[id].isReal then Some("already real")
    else if l.available < l.allocs[id].principal then Some("insufficient funds")
    else None
  }

  function CommitReal(l: LedgerState, id: ContainerId): LedgerState {
    if CommitError(l, id).Some? then l
    else
      var amount := l.allocs[id].principal;
      l.(available := l.available - amount, paper := l.paper - amount, allocatedReal := l.allocatedReal + amount,
         allocs := l.allocs[id := Allocation(amount, true)])
  }

  function GiveBack(l: LedgerState, id: ContainerId, returned: int): LedgerState {
    if id !in l.allocs then l
    else
      var a := l.allocs[id];
      var l1 := l.(realized := l.realized + (returned - a.principal), allocs := l.allocs - {id});
      if a.isReal then l1.(allocatedReal := l.allocatedReal - a.principal, available := l.available + returned)
      else l1.(paper := l.paper - a.principal)
  }

  function AfterFill(p: Position, f: Fill): Position
    requires f.qty > 0
  {
    if f.side == Buy then
      if p.net == 0 then Position(f.qty, f.price, p.realized)
      else Position(p.net + f.qty, MergeAverage(p.avg, p.net, f.price, f.qty), p.realized)
    else
      var left := Max(0, p.net - f.qty);
      Position(left, if left == 0 then 0 else p.avg, p.realized + (f.price * f.qty - p.avg * f.qty - f.fees))
  }

  function LedgerFill(l: LedgerState, f: Fill): LedgerState
    requires f.qty > 0
  {
    l.(fills := l.fills + [f], positions := l.positions[f.symbol := AfterFill(l.Pos(f.symbol), f)])
  }

  // ---------------------------------------------------------------- two-level conservation

  /** Sum of the principals of one kind of allocation. */
  ghost function Principals(allocs: map<ContainerId, Allocation>, isReal: bool): int {
    if allocs == map[] then 0
    else
      var id :| id in allocs;
      (if allocs[id].isReal == isReal then allocs[id].principal else 0) + Principals(allocs - {id}, isReal)
  }

  /** Removing any one allocation lowers the sum by its principal. */
  lemma {:induction false} PrincipalsMinus(allocs: map<ContainerId, Allocation>, id: ContainerId, isReal: bool)
    requires id in allocs
    ensures Principals(allocs, isReal) ==
      (if allocs[id].isReal == isReal then allocs[id].principal else 0) + Principals(allocs - {id}, isReal)
    decreases |allocs|
  {
    var x :| x in allocs &&
      Principals(allocs, isReal) ==
        (if allocs[x].isReal == isReal then allocs[x].principal else 0) + Principals(allocs - {x}, isReal);
    if x != id {
      PrincipalsMinus(allocs - {x}, id, isReal);
      PrincipalsMinus(allocs - {id}, x, isReal);
      assert allocs - {x} - {id} == allocs - {id} - {x};
    }
  }

  lemma PrincipalsPlus(allocs: map<ContainerId, Allocation>, id: ContainerId, a: Allocation, isReal: bool)
    requires id !in allocs
    ensures Principals(allocs[id := a], isReal) ==
      (if a.isReal == isReal then a.principal else 0) + Principals(allocs, isReal)
  {
    PrincipalsMinus(allocs[id := a], id, isReal);
    assert allocs[id := a] - {id} == allocs;
  }

  lemma {:induction false} PrincipalsPositive(allocs: map<ContainerId, Allocation>, isReal: bool)
    requires forall id :: id in allocs ==> allocs[id].principal > 0
    ensures Principals(allocs, isReal) >= 0
    ensures Principals(allocs, isReal) == 0 ==> forall id :: id in allocs ==> allocs[id].isReal != isReal
    decreases |allocs|
  {
    if allocs != map[] {
      forall id | id in allocs
        ensures Principals(allocs, isReal) >= (if allocs[id].isReal == isReal then allocs[id].principal else 0)
      {
        PrincipalsMinus(allocs, id, isReal);
        PrincipalsPositive(allocs - {id}, isReal);
      }
    }
  }

  datatype LedgerOp =
    | OpTake(id: ContainerId, amount: int, mode: ContainerMode)
    | OpCommit(id: ContainerId)
    | OpGiveBack(id: ContainerId, returned: int)
    | OpFill(fill: Fill)

  /** An operation the engine may issue: fills carry a positive quantity. */
  predicate Issuable(op: LedgerOp) { op.OpFill? ==> op.fill.qty > 0 }

  function Perform(l: LedgerState, op: LedgerOp): LedgerState
    requires Issuable(op)
  {
    match op
    case OpTake(id, amount, mode) => Take(l, id, amount, mode)
    case OpCommit(id) => CommitReal(l, id)
    case OpGiveBack(id, returned) => GiveBack(l, id, returned)
    case OpFill(f) => LedgerFill(l, f)
  }

  /** P&L that an operation releases while the allocation is not real. */
  function PaperPnl(l: LedgerState, op: LedgerOp): int {
    if op.OpGiveBack? && op.id in l.allocs && !l.allocs[op.id].isReal
    then op.returned - l.allocs[op.id].principal else 0
  }

  /** Conservation, with paperPnl the P&L released while not real so far. */
  ghost predicate Conserved(l: LedgerState, paperPnl: int) {
    && (forall id :: id in l.allocs ==> l.allocs[id].principal > 0)
    && l.allocatedReal == Principals(l.allocs, true)
    && l.paper == Principals(l.allocs, false)
    && l.available + l.allocatedReal + paperPnl == l.borrowed + l.realized
  }

  /** Every ledger operation keeps the books balanced. */
  lemma PerformConserves(l: LedgerState, op: LedgerOp, paperPnl: int)
    requires Conserved(l, paperPnl) && Issuable(op)
    ensures Conserved(Perform(l, op), paperPnl + PaperPnl(l, op))
    ensures Perform(l, op).borrowed == l.borrowed
  {
    match op
    case OpTake(id, amount, mode) =>
      if TakeError(l, id, amount, mode).None? {
        PrincipalsPlus(l.allocs, id, Allocation(amount, mode == Real), true);
        PrincipalsPlus(l.allocs, id, Allocation(amount, mode == Real), false);
      }
    case OpCommit(id) =>
      if CommitError(l, id).None? {
        var a := Allocation(l.allocs[id].principal, true);
        assert l.allocs[id := a] == (l.allocs - {id})[id := a];
        PrincipalsMinus(l.allocs, id, true); PrincipalsMinus(l.allocs, id, false);
        PrincipalsPlus(l.allocs - {id}, id, a, true); PrincipalsPlus(l.allocs - {id}, id, a, false);
      }
    case OpGiveBack(id, returned) =>
      if id in l.allocs { PrincipalsMinus(l.allocs, id, true); PrincipalsMinus(l.allocs, id, false); }
    case OpFill(f) =>
  }

  /** settled() says exactly that nothing is allocated. */
  lemma SettledIff(l: LedgerState, paperPnl: int)
    requires Conserved(l, paperPnl)
    ensures l.Settled() <==> l.allocs == map[]
  {
    PrincipalsPositive(l.allocs, true);
    PrincipalsPositive(l.allocs, false);
    if l.Settled() { assert l.allocs.Keys == {}; }
  }

  /** The ledger after a sequence of operations, with the P&L released while not real. */
  ghost function PerformAll(borrowed: int, ops: seq<LedgerOp>): (r: (LedgerState, int))
    requires forall i :: 0 <= i < |ops| ==> Issuable(ops[i])
    ensures Conserved(r.0, r.1) && r.0.borrowed == borrowed
  {
    if ops == [] then (Opened(borrowed), 0)
    else
      var n := |ops| - 1;
      var (l, pnl) := PerformAll(borrowed, ops[..n]);
      PerformConserves(l, ops[n], pnl);
      (Perform(l, ops[n]), pnl + PaperPnl(l, ops[n]))
  }

  class PortfolioLedger {
    var borrowed: int
    var available: int
    var allocatedReal: int
    var paper: int
    var realized: int
    var allocs: map<ContainerId, Allocation>
    var positions: map<SymbolId, Position>
    var fills: seq<Fill>

    function State(): LedgerState
      reads this
    {
      LedgerState(borrowed, available, allocatedReal, paper, realized, allocs, positions, fills)
    }

    constructor (borrowed: int)
      ensures State() == Opened(borrowed)
    {
      this.borrowed, available, allocatedReal, paper, realized := borrowed, borrowed, 0, 0, 0;
      allocs, positions, fills := map[], map[], [];
    }

    method TakeCapital(id: ContainerId, amount: int, mode: ContainerMode) returns (r: OpResult)
      modifies this
      ensures State() == Take(old(State()), id, amount, mode)
      ensures var e := TakeError(old(State()), id, amount, mode); r == if e.Some? then Failed(e.value) else Done
    {
      if amount <= 0 { return Failed("invalid amount"); }
      if id in allocs { return Failed("already allocated"); }
      var isReal := mode == Real;
      if isReal && available < amount { return Failed("insufficient funds"); }
      if isReal {
        available := available - amount;
        allocatedReal := allocatedReal + amount;
      } else {
        paper := paper + amount;
      }
      allocs := allocs[id := Allocation(amount, isReal)];
      r := Done;
    }

    method Commit(id: ContainerId) returns (r: OpResult)
      modifies this
      ensures State() == CommitReal(old(State()), id)
      ensures var e := CommitError(old(State()), id); r == if e.Some? then Failed(e.value) else Done
    {
      if id !in allocs { return Failed("not allocated"); }
      if allocs[id].isReal { return Failed("already real"); }
      var amount := allocs[id].principal;
      if available < amount { return Failed("insufficient funds"); }
      available := available - amount;
      paper := paper - amount;
      allocatedReal := allocatedReal + amount;
      allocs := allocs[id := Allocation(amount, true)];
      r := Done;
    }

    method Release(id: ContainerId, returned: int) returns (r: OpResult)
      modifies this
      ensures State() == GiveBack(old(State()), id, returned)
      ensures r == if id in old(allocs) then Done else Failed("not allocated")
    {
      if id !in allocs { return Failed("not allocated"); }
      var a := allocs[id];
      realized := realized + (returned - a.principal);
      if a.isReal {
        allocatedReal := allocatedReal - a.principal;
        available := available + returned;
      } else {
        paper := paper - a.principal;
      }
      allocs := allocs - {id};
      r := Done;
    }

    method ApplyFill(f: Fill)
      requires f.qty > 0
      modifies this
      ensures State() == LedgerFill(old(State()), f)
    {
      fills := fills + [f];
      var p := if f.symbol in positions then positions[f.symbol] else Position(0, 0, 0);
      if f.side == Buy {
        if p.net == 0 {
          p := p.(net := f.qty, avg := f.price);
        } else {
          p := p.(net := p.net + f.qty, avg := MergeAverage(p.avg, p.net, f.price, f.qty));
        }
      } else {
        var pnl := f.price * f.qty - p.avg * f.qty - f.fees;
        var left := p.net - f.qty;
        p := p.(realized := p.realized + pnl, net := if left < 0 then 0 else left);
        if p.net == 0 { p := p.(avg := 0); }
      }
      positions := positions[f.symbol := p];
    }
  }
}
