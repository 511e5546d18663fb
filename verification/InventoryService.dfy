/** The inventory repository and service: guarded updates in place, and the optimistic retry loop of Deduct
    running against arbitrary transactions of others. */
module InventoryService {
  import opened Events
  import opened InventoryStore

  // ---------------------------------------------------------------- what other transactions may do

  /** An update another transaction sends to the row. It commits only if its guard holds. */
  datatype Update =
    | Deduction(quantity: int, version: int)
    | Returning(quantity: int)
    | Confirmation(quantity: int)

  function Attempted(row: Row, u: Update): Option<Row> {
    match u
    case Deduction(quantity, version) => InventoryStore.DeductWithLock(row, quantity, version)
    case Returning(quantity) => InventoryStore.ReturnStock(row, quantity)
    case Confirmation(quantity) => InventoryStore.ConfirmDeduction(row, quantity)
  }

  function AfterUpdate(row: Row, u: Update): Row {
    match Attempted(row, u)
    case Some(row') => row'
    case None => row
  }

  function AfterUpdates(row: Row, us: seq<Update>): Row
    decreases |us|
  {
    if us == [] then row else AfterUpdates(AfterUpdate(row, us[0]), us[1..])
  }

  /** How many of the updates commit. */
  function Commits(row: Row, us: seq<Update>): nat
    decreases |us|
  {
    if us == [] then 0
    else (if Attempted(row, us[0]).Some? then 1 else 0) + Commits(AfterUpdate(row, us[0]), us[1..])
  }

  /** The version counts commits: it strictly grows with each, so an unchanged version means an unchanged row. */
  lemma {:induction false} VersionCountsCommits(row: Row, us: seq<Update>)
    ensures AfterUpdates(row, us).version == row.version + Commits(row, us)
    ensures Commits(row, us) == 0 ==> AfterUpdates(row, us) == row
    decreases |us|
  {
    if us != [] {
      VersionCountsCommits(AfterUpdate(row, us[0]), us[1..]);
    }
  }

  /** What happens around one attempt of Deduct: others' updates before its read, and between read and write,
      and whether the database fails to execute its read or its write. */
  datatype Window = Window(beforeRead: seq<Update>, beforeWrite: seq<Update>, readFails: bool, writeFails: bool)

  /** The row an attempt reads, and the row it finds when it writes, if all attempts before it failed. */
  function ReadAt(row: Row, windows: seq<Window>, i: nat): Row
    requires i < |windows|
    decreases i, 0
  {
    AfterUpdates(if i == 0 then row else FoundAt(row, windows, i - 1), windows[i].beforeRead)
  }

  function FoundAt(row: Row, windows: seq<Window>, i: nat): Row
    requires i < |windows|
    decreases i, 1
  {
    AfterUpdates(ReadAt(row, windows, i), windows[i].beforeWrite)
  }

  /** Some update of another transaction commits between the read and the write of attempt i. */
  predicate Disturbed(row: Row, windows: seq<Window>, i: nat)
    requires i < |windows|
  {
    Commits(ReadAt(row, windows, i), windows[i].beforeWrite) > 0
  }

  predicate EnoughAt(row: Row, windows: seq<Window>, i: nat, quantity: int)
    requires i < |windows|
  {
    ReadAt(row, windows, i).available >= quantity
  }

  /** Attempts before i read enough stock, met no database error and were disturbed. */
  predicate FailedBefore(row: Row, windows: seq<Window>, i: nat, quantity: int)
    requires i <= |windows|
  {
    forall j: nat | j < i ::
      && EnoughAt(row, windows, j, quantity) && Disturbed(row, windows, j)
      && !windows[j].readFails && !windows[j].writeFails
  }

  const MAX_RETRIES := 3

  /** What Deduct answers and the rows it leaves. It answers Deducted exactly when some attempt that read enough stock
      was left undisturbed after earlier ones were not, and then it has updated exactly the row it read; it gives up
      after reading enough stock only if another update committed inside every one of its windows. None is a database
      error; it ends the loop at once. */
  ghost predicate DeductAnswers(rows: Stock, product: ProductId, quantity: int, windows: seq<Window>,
                                outcome: Option<DeductOutcome>, attempts: nat, rows': Stock)
    requires |windows| == MAX_RETRIES
  {
    && attempts <= MAX_RETRIES
    && (product !in rows ==> rows' == rows && outcome == if windows[0].readFails then None else Some(NotFound))
    && (product in rows ==>
          && outcome != Some(NotFound)
          && (outcome == Some(Deducted) ==> DeductedAt(rows, product, quantity, windows, attempts, rows'))
          && (outcome == Some(Insufficient) ==>
                && FailedBefore(rows[product], windows, attempts, quantity)
                && (attempts == MAX_RETRIES || !EnoughAt(rows[product], windows, attempts, quantity))
                && rows' == rows[product :=
                     if attempts == MAX_RETRIES then FoundAt(rows[product], windows, MAX_RETRIES - 1)
                     else ReadAt(rows[product], windows, attempts)])
          && (outcome.None? ==>
                && attempts < MAX_RETRIES && FailedBefore(rows[product], windows, attempts, quantity)
                && (if windows[attempts].readFails
                    then rows' == rows[product := ReadAt(rows[product], windows, attempts)]
                    else windows[attempts].writeFails && EnoughAt(rows[product], windows, attempts, quantity)
                         && rows' == rows[product := FoundAt(rows[product], windows, attempts)])))
  }

  /** The last of these attempts updated exactly the row it read. */
  ghost predicate DeductedAt(rows: Stock, product: ProductId, quantity: int, windows: seq<Window>, attempts: nat,
                             rows': Stock)
    requires |windows| == MAX_RETRIES && product in rows && attempts <= MAX_RETRIES
  {
    1 <= attempts && FailedBefore(rows[product], windows, attempts - 1, quantity) &&
    var read := ReadAt(rows[product], windows, attempts - 1);
    && !windows[attempts - 1].readFails && !windows[attempts - 1].writeFails
    && read.available >= quantity && FoundAt(rows[product], windows, attempts - 1) == read
    && rows' == rows[product :=
         Row(read.total, read.available - quantity, read.locked + quantity, read.version + 1)]
  }

  /** Nobody else is on the row around the attempt, and the database executes its statements. */
  predicate Quiet(w: Window) {
    w == Window([], [], false, false)
  }

  /** A Deduct whose first attempt is left in peace is the single step the saga takes it for. */
  lemma QuietDeduct(rows: Stock, product: ProductId, quantity: int, windows: seq<Window>,
                    outcome: Option<DeductOutcome>, attempts: nat, rows': Stock)
    requires |windows| == MAX_RETRIES && Quiet(windows[0])
    requires DeductAnswers(rows, product, quantity, windows, outcome, attempts, rows')
    ensures var (stock, answer) := InventoryStore.Deduct(rows, product, quantity);
            rows' == stock && outcome == Some(answer)
  {
    if product in rows {
      var row := rows[product];
      QuietWindows(row, windows, if outcome == Some(Deducted) then attempts - 1 else attempts, quantity);
      match outcome {
        case None =>
        case Some(Deducted) => assert DeductedAt(rows, product, quantity, windows, attempts, rows');
        case Some(Insufficient) => assert rows' == rows[product := row] == rows;
        case Some(NotFound) =>
      }
    }
  }

  /** Without updates of others the first attempt reads and finds the row itself, and settles the loop. */
  lemma QuietWindows(row: Row, windows: seq<Window>, attempts: nat, quantity: int)
    requires |windows| == MAX_RETRIES && attempts <= MAX_RETRIES && Quiet(windows[0])
    ensures ReadAt(row, windows, 0) == row && FoundAt(row, windows, 0) == row
    ensures EnoughAt(row, windows, 0, quantity) <==> row.available >= quantity
    ensures FailedBefore(row, windows, attempts, quantity) ==> attempts == 0
  {
    assert !Disturbed(row, windows, 0);
  }

  // ---------------------------------------------------------------- repository

  class Repository {
    var rows: Stock

    constructor ()
      ensures rows == map[]
    {
      rows := map[];
    }

    method GetByProductID(product: ProductId) returns (row: Option<Row>)
      ensures row == if product in rows then Some(rows[product]) else None
    {
      row := if product in rows then Some(rows[product]) else None;
    }

    method Upsert(product: ProductId, row: Row)
      modifies this
      ensures rows == old(rows)[product := row]
    {
      rows := rows[product := row];
    }

    /** False stands for the optimistic lock conflict: no row matched the guard. */
    method DeductWithLock(product: ProductId, quantity: int, version: int) returns (updated: bool)
      modifies this
      ensures updated <==> product in old(rows)
                           && old(rows)[product].version == version && old(rows)[product].available >= quantity
      ensures updated ==>
                var was := old(rows)[product];
                && rows == old(rows)[product :=
                     Row(was.total, was.available - quantity, was.locked + quantity, was.version + 1)]
                && InventoryStore.DeductWithLock(was, quantity, version) == Some(rows[product])
      ensures !updated ==> rows == old(rows)
    {
      updated := product in rows && rows[product].available >= quantity && rows[product].version == version;
      if updated {
        var row := rows[product];
        rows := rows[product := Row(row.total, row.available - quantity, row.locked + quantity, row.version + 1)];
      }
    }

    method ReturnStock(product: ProductId, quantity: int) returns (updated: bool)
      modifies this
      ensures rows == Return(old(rows), product, quantity)
      ensures updated <==> product in old(rows) && old(rows)[product].locked >= quantity
      ensures !updated ==> rows == old(rows)
      ensures updated ==>
                var was := old(rows)[product];
                rows == old(rows)[product :=
                  Row(was.total, was.available + quantity, was.locked - quantity, was.version + 1)]
    {
      updated := product in rows && rows[product].locked >= quantity;
      if updated {
        var row := rows[product];
        rows := rows[product := Row(row.total, row.available + quantity, row.locked - quantity, row.version + 1)];
      }
    }

    method ConfirmDeduction(product: ProductId, quantity: int) returns (updated: bool)
      modifies this
      ensures rows == Confirm(old(rows), product, quantity)
      ensures updated <==> product in old(rows) && old(rows)[product].locked >= quantity
      ensures !updated ==> rows == old(rows)
      ensures updated ==>
                var was := old(rows)[product];
                rows == old(rows)[product := Row(was.total, was.available, was.locked - quantity, was.version + 1)]
    {
      updated := product in rows && rows[product].locked >= quantity;
      if updated {
        var row := rows[product];
        rows := rows[product := Row(row.total, row.available, row.locked - quantity, row.version + 1)];
      }
    }

    /** Other transactions' updates of one product, one after the other. */
    method OthersUpdate(product: ProductId, us: seq<Update>)
      modifies this
      ensures product !in old(rows) ==> rows == old(rows)
      ensures product in old(rows) ==> rows == old(rows)[product := AfterUpdates(old(rows)[product], us)]
    {
      if product in rows {
        var row := rows[product];
        var i := 0;
        while i < |us|
          invariant 0 <= i <= |us|
          invariant AfterUpdates(row, us[i..]) == AfterUpdates(old(rows)[product], us)
        {
          assert us[i..][1..] == us[i + 1..];
          row := AfterUpdate(row, us[i]);
          i := i + 1;
        }
        rows := rows[product := row];
      }
    }
  }

  // ---------------------------------------------------------------- service

  class Service {
    const repo: Repository

    constructor (repo: Repository)
      ensures this.repo == repo
    {
      this.repo := repo;
    }

    /** The retry loop, against whatever others do around its attempts. */
    method Deduct(product: ProductId, quantity: int, windows: seq<Window>)
      returns (outcome: Option<DeductOutcome>, attempts: nat)
      requires |windows| == MAX_RETRIES
      modifies repo
      ensures DeductAnswers(old(repo.rows), product, quantity, windows, outcome, attempts, repo.rows)
    {
      var i := 0;
      while i < MAX_RETRIES
        invariant 0 <= i <= MAX_RETRIES
        invariant product !in old(repo.rows) ==> i == 0 && repo.rows == old(repo.rows)
        invariant product in old(repo.rows) ==>
                    && FailedBefore(old(repo.rows)[product], windows, i, quantity)
                    && repo.rows == old(repo.rows)[product :=
                         if i == 0 then old(repo.rows)[product] else FoundAt(old(repo.rows)[product], windows, i - 1)]
      {
        var ended, answer := Attempt(product, quantity, windows[i]);
        if ended {
          return answer, if answer == Some(Deducted) then i + 1 else i;
        }
        i := i + 1;
      }
      return Some(Insufficient), i;
    }

    /** One pass of the loop body. It goes round again only on a conflict. */
    method Attempt(product: ProductId, quantity: int, w: Window) returns (ended: bool, outcome: Option<DeductOutcome>)
      modifies repo
      ensures product !in old(repo.rows) ==>
                ended && repo.rows == old(repo.rows) && outcome == if w.readFails then None else Some(NotFound)
      ensures product in old(repo.rows) ==>
                var read := AfterUpdates(old(repo.rows)[product], w.beforeRead);
                var found := AfterUpdates(read, w.beforeWrite);
                if w.readFails then ended && outcome == None && repo.rows == old(repo.rows)[product := read]
                else if read.available < quantity then
                  ended && outcome == Some(Insufficient) && repo.rows == old(repo.rows)[product := read]
                else if w.writeFails then ended && outcome == None && repo.rows == old(repo.rows)[product := found]
                else if Commits(read, w.beforeWrite) == 0 then
                  && ended && outcome == Some(Deducted) && found == read
                  && repo.rows == old(repo.rows)[product :=
                       Row(read.total, read.available - quantity, read.locked + quantity, read.version + 1)]
                else !ended && repo.rows == old(repo.rows)[product := found]
    {
      repo.OthersUpdate(product, w.beforeRead);
      if w.readFails {
        return true, None;
      }
      var inv := repo.GetByProductID(product);
      if inv.None? {
        return true, Some(NotFound);
      }
      if inv.value.available < quantity {
        return true, Some(Insufficient);
      }
      repo.OthersUpdate(product, w.beforeWrite);
      if w.writeFails {
        return true, None;
      }
      VersionCountsCommits(inv.value, w.beforeWrite);
      ended := repo.DeductWithLock(product, quantity, inv.value.version);
      outcome := if ended then Some(Deducted) else None;
    }

    /** A Deduct that nobody disturbs, and whose statements the database executes, is the single step the saga takes
        it for: the whole loop then has the effect and the answer of one guarded update. */
    method UndisturbedDeduct(product: ProductId, quantity: int) returns (outcome: DeductOutcome)
      modifies repo
      ensures repo.rows == InventoryStore.Deduct(old(repo.rows), product, quantity).0
      ensures outcome == InventoryStore.Deduct(old(repo.rows), product, quantity).1
    {
      var quiet := Window([], [], false, false);
      var windows := [quiet, quiet, quiet];
      var answer, attempts := Deduct(product, quantity, windows);
      QuietDeduct(old(repo.rows), product, quantity, windows, answer, attempts, repo.rows);
      outcome := answer.value;
    }

    /** Set the total stock: the available stock moves with it but never below zero. */
    method SetInventory(product: ProductId, total: int) returns (row: Row)
      modifies repo
      ensures repo.rows == old(repo.rows)[product := row]
      ensures product !in old(repo.rows) ==> row == Row(total, total, 0, 0)
      ensures product in old(repo.rows) ==>
                var was := old(repo.rows)[product];
                && row == WithTotal(was, total)
                && row.total == total && row.locked == was.locked && row.version == was.version
                && row.available == (if was.available + total < was.total then 0 else was.available + total - was.total)
    {
      var found := repo.GetByProductID(product);
      if found.None? {
        row := Row(total, total, 0, 0);
      } else {
        var inv := found.value;
        var available := inv.available + (total - inv.total);
        if available < 0 {
          available := 0;
        }
        row := Row(total, available, inv.locked, inv.version);
      }
      repo.Upsert(product, row);
    }
  }

  // ---------------------------------------------------------------- conservation, with SetInventory as one step

  function WithTotal(row: Row, total: int): Row {
    var moved := row.available + (total - row.total);
    row.(total := total, available := if moved < 0 then 0 else moved)
  }

  /** One operation on a row: an update in any order and any number, or an administrator setting the total. */
  datatype Operation = Touch(update: Update) | SetTotal(total: int)

  /** A row with the units confirmed so far and the excess an administrator's cuts have caused. */
  datatype Account = Account(row: Row, sold: int, excess: int)

  function Operate(a: Account, op: Operation): Account {
    match op
    case Touch(u) =>
      Account(AfterUpdate(a.row, u),
              a.sold + (if u.Confirmation? && Attempted(a.row, u).Some? then u.quantity else 0), a.excess)
    case SetTotal(total) =>
      var shortage := a.row.locked + a.sold - total;
      Account(WithTotal(a.row, total), a.sold, if a.excess < shortage then shortage else a.excess)
  }

  function OperateAll(a: Account, ops: seq<Operation>): Account
    decreases |ops|
  {
    if ops == [] then a else OperateAll(Operate(a, ops[0]), ops[1..])
  }

  predicate Conserved(a: Account) {
    && a.row.available >= 0 && a.row.locked >= 0
    && a.row.available + a.row.locked + a.sold == a.row.total + a.excess
  }

  /** Conservation under any sequence of operations, duplicates and stale versions included: stock is never
      negative, and available, locked and sold units add up to the total plus the excess, which only grows when an
      administrator cuts the total below what is already locked or sold. */
  lemma {:induction false} StockConserved(a: Account, ops: seq<Operation>)
    requires Conserved(a)
    requires forall op | op in ops && op.Touch? :: op.update.quantity >= 0
    ensures Conserved(OperateAll(a, ops))
    ensures OperateAll(a, ops).excess >= a.excess && OperateAll(a, ops).sold >= a.sold
    decreases |ops|
  {
    if ops != [] {
      assert ops[0] in ops;
      assert forall op | op in ops[1..] :: op in ops;
      StockConserved(Operate(a, ops[0]), ops[1..]);
    }
  }

  /** No operation sets the total below what is locked or sold when it comes. */
  predicate NoDeepCut(a: Account, ops: seq<Operation>) {
    forall i | 0 <= i < |ops| && ops[i].SetTotal? ::
      var before := OperateAll(a, ops[..i]);
      ops[i].total >= before.row.locked + before.sold
  }

  lemma NoDeepCutFirst(a: Account, ops: seq<Operation>)
    requires ops != []
    ensures NoDeepCut(a, ops) <==>
              && (ops[0].SetTotal? ==> ops[0].total >= a.row.locked + a.sold)
              && NoDeepCut(Operate(a, ops[0]), ops[1..])
  {
    var b := Operate(a, ops[0]);
    forall i | 1 <= i <= |ops| ensures OperateAll(a, ops[..i]) == OperateAll(b, ops[1..][..i - 1]) {
      assert ops[..i][1..] == ops[1..][..i - 1];
    }
    assert OperateAll(a, ops[..0]) == a;
    if NoDeepCut(a, ops) {
      forall i | 0 <= i < |ops[1..]| && ops[1..][i].SetTotal?
        ensures var before := OperateAll(b, ops[1..][..i]); ops[1..][i].total >= before.row.locked + before.sold
      {
        assert ops[1..][i] == ops[i + 1];
      }
    }
    if (ops[0].SetTotal? ==> ops[0].total >= a.row.locked + a.sold) && NoDeepCut(b, ops[1..]) {
      forall i | 0 <= i < |ops| && ops[i].SetTotal?
        ensures var before := OperateAll(a, ops[..i]); ops[i].total >= before.row.locked + before.sold
      {
        if i > 0 {
          assert ops[1..][i - 1] == ops[i];
        }
      }
    }
  }

  lemma {:induction false} ExcessOnlyGrows(a: Account, ops: seq<Operation>)
    ensures OperateAll(a, ops).excess >= a.excess
    decreases |ops|
  {
    if ops != [] {
      ExcessOnlyGrows(Operate(a, ops[0]), ops[1..]);
    }
  }

  /** The excess stays zero exactly if no SetInventory ever set the total below what was locked or sold by then,
      whatever else happened: raising the total, or lowering it to that bound, is harmless. */
  lemma {:induction false} NoCutNoExcess(a: Account, ops: seq<Operation>)
    requires a.excess == 0
    ensures OperateAll(a, ops).excess == 0 <==> NoDeepCut(a, ops)
    decreases |ops|
  {
    if ops != [] {
      var b := Operate(a, ops[0]);
      NoDeepCutFirst(a, ops);
      if b.excess == 0 {
        NoCutNoExcess(b, ops[1..]);
      } else {
        ExcessOnlyGrows(b, ops[1..]);
      }
    }
  }

  /** The life of a row that SetInventory created with a given total: stock is never negative, and what is available,
      locked or sold is exactly the total as long as no SetInventory went below what was locked or sold. */
  lemma NewRowConserved(total: int, ops: seq<Operation>)
    requires total >= 0
    requires forall op | op in ops && op.Touch? :: op.update.quantity >= 0
    ensures var b := OperateAll(Account(Row(total, total, 0, 0), 0, 0), ops);
            && b.row.available >= 0 && b.row.locked >= 0
            && b.row.available + b.row.locked + b.sold >= b.row.total
            && (b.row.available + b.row.locked + b.sold == b.row.total
                <==> NoDeepCut(Account(Row(total, total, 0, 0), 0, 0), ops))
  {
    var a := Account(Row(total, total, 0, 0), 0, 0);
    StockConserved(a, ops);
    NoCutNoExcess(a, ops);
  }
}
