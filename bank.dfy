/** A sequential model of the account ledger of src/util/bank.rs.

    Each account record (`Bankaccount`) is an object whose balance its own
    `Deposit` and `Withdraw` change in place. The `Bank` maps account ids to
    those records. Each operation of the bank is proved against a pure
    transition function on the abstract view `map<string, int>` (id to
    balance), and the properties of the ledger are lemmas about those
    functions. Balances are unbounded integers. The per-record mutex
    disappears in a single-threaded model.
 */
module Bank {

  /** The four error strings of the source, as constructors:
      "账户不存在" (NotFound), "存款失败" (DepositFailed),
      "取款失败" (WithdrawFailed) and "余额不足" (Insufficient). */
  datatype LedgerError = NotFound | DepositFailed | WithdrawFailed | Insufficient

  /** `Result<(), String>` of the source. */
  datatype Outcome = Done | Failed(error: LedgerError)

  /** The outcome of one operation on one account, with the balance afterwards. */
  datatype Step = Step(outcome: Outcome, balance: int)

  /** The outcome of one operation on the ledger, with every balance afterwards. */
  datatype Update = Update(outcome: Outcome, balances: map<string, int>)

  /** The amount `payroll` deposits (`Bank::new` sets it once). */
  const PayrollAmount: int := 200

  /** The divisor `payinterest` applies to the balance (`Bank::new` sets it once). */
  const InterestDivisor: int := 10

  // ---------------------------------------------------------------------
  // Rules for one account
  // ---------------------------------------------------------------------

  /** `Bankaccount::deposit`: only a positive amount is accepted, and then it
      is added in full; a refused deposit leaves the balance alone. */
  function DepositRule(balance: int, amount: int): (s: Step)
    ensures s.outcome == Done <==> amount > 0
    ensures s.outcome.Failed? ==> s.outcome.error == DepositFailed
    ensures s.outcome == Done ==> s.balance - balance == amount
    ensures s.outcome.Failed? ==> s.balance == balance
    ensures s.balance >= balance
  {
    if amount > 0 then Step(Done, balance + amount)
    else Step(Failed(DepositFailed), balance)
  }

  /** `Bankaccount::withdraw`: a negative amount is refused first, then an
      amount above the balance; otherwise the amount is taken off. A
      withdrawal never takes a non-negative balance below zero. */
  function WithdrawRule(balance: int, amount: int): (s: Step)
    ensures amount < 0 ==> s == Step(Failed(WithdrawFailed), balance)
    ensures 0 <= amount && balance < amount ==> s == Step(Failed(Insufficient), balance)
    ensures s.outcome == Done <==> 0 <= amount <= balance
    ensures s.outcome == Done ==> balance - s.balance == amount
    ensures balance >= 0 ==> s.balance >= 0
    ensures s.balance <= balance
  {
    if amount < 0 then Step(Failed(WithdrawFailed), balance)
    else if balance < amount then Step(Failed(Insufficient), balance)
    else Step(Done, balance - amount)
  }

  /** Division of `i32` values in Rust, which rounds toward zero (Dafny's
      `/` rounds toward negative infinity for a negative dividend). */
  function TruncDiv(a: int, d: int): (q: int)
    requires d > 0
    ensures a >= 0 ==> q >= 0 && q * d <= a < q * d + d
    ensures a < 0 ==> q <= 0 && q * d - d < a <= q * d
  {
    DivBounds(if a >= 0 then a else -a, d);
    if a >= 0 then a / d else -((-a) / d)
  }

  /** Euclidean division of a non-negative dividend brackets it between two
      consecutive multiples of the divisor, and so does its negation. */
  lemma DivBounds(x: int, d: int)
    requires x >= 0 && d > 0
    ensures x / d >= 0 && (x / d) * d <= x < (x / d) * d + d
    ensures (-(x / d)) * d - d < -x <= (-(x / d)) * d
  {
    var y := x / d;
    assert x == y * d + x % d;
    assert (-y) * d == -(y * d);
  }

  /** The interest `payinterest` deposits on a balance. It is positive
      exactly when the balance reaches the divisor. */
  function Interest(balance: int): (i: int)
    ensures i > 0 <==> balance >= InterestDivisor
  {
    TruncDiv(balance, InterestDivisor)
  }

  // ---------------------------------------------------------------------
  // Transitions of the whole ledger
  // ---------------------------------------------------------------------

  /** `Bank::deposit`: an absent id is refused; otherwise the account rule
      decides, and only the named account can change. */
  function DepositTo(m: map<string, int>, id: string, amount: int): (u: Update)
    ensures id !in m ==> u == Update(Failed(NotFound), m)
    ensures u.balances.Keys == m.Keys
    ensures forall k :: k in m && k != id ==> u.balances[k] == m[k]
    ensures id in m ==> Step(u.outcome, u.balances[id]) == DepositRule(m[id], amount)
    ensures u.outcome.Failed? ==> u.balances == m
  {
    if id !in m then Update(Failed(NotFound), m)
    else
      var s := DepositRule(m[id], amount);
      Update(s.outcome, m[id := s.balance])
  }

  /** `Bank::withdraw`: an absent id is refused; otherwise the account rule
      decides, and only the named account can change. */
  function WithdrawFrom(m: map<string, int>, id: string, amount: int): (u: Update)
    ensures id !in m ==> u == Update(Failed(NotFound), m)
    ensures u.balances.Keys == m.Keys
    ensures forall k :: k in m && k != id ==> u.balances[k] == m[k]
    ensures id in m ==> Step(u.outcome, u.balances[id]) == WithdrawRule(m[id], amount)
    ensures u.outcome.Failed? ==> u.balances == m
  {
    if id !in m then Update(Failed(NotFound), m)
    else
      var s := WithdrawRule(m[id], amount);
      Update(s.outcome, m[id := s.balance])
  }

  /** The inputs on which `Bank::transfer` returns instead of panicking:
      `from` is always looked up; `to` is looked up and locked only after
      the withdrawal succeeded, and locking it then fails when it is the
      record whose guard is still held, that is when `to == from`. */
  predicate TransferReturns(m: map<string, int>, amount: int, from: string, to: string)
  {
    from in m && (WithdrawRule(m[from], amount).outcome.Failed? || (to in m && from != to))
  }

  /** `Bank::transfer`: withdraw from `from`, and only if that succeeds
      deposit into `to`. A refused withdrawal is returned without looking at
      `to`. On a non-negative balance a zero amount passes the withdrawal
      and is then refused by the deposit; every failure leaves the ledger as
      it was. */
  function TransferBetween(m: map<string, int>, amount: int, from: string, to: string): (u: Update)
    requires TransferReturns(m, amount, from, to)
    ensures u.balances.Keys == m.Keys
    ensures u.outcome == Done <==> 0 < amount <= m[from]
    ensures amount < 0 ==> u.outcome == Failed(WithdrawFailed)
    ensures 0 <= amount && m[from] < amount ==> u.outcome == Failed(Insufficient)
    ensures amount == 0 && m[from] >= 0 ==> u.outcome == Failed(DepositFailed)
    ensures u.outcome.Failed? ==> u.balances == m
    ensures u.outcome == Done ==> to in m && from != to
    ensures u.outcome == Done ==>
      u.balances[from] == m[from] - amount && to in m && u.balances[to] == m[to] + amount
    ensures forall k :: k in m && k != from && k != to ==> u.balances[k] == m[k]
  {
    var w := WithdrawRule(m[from], amount);
    if w.outcome.Failed? then Update(w.outcome, m)
    else
      var debited := m[from := w.balance];
      var d := DepositRule(debited[to], amount);
      if d.outcome.Failed? then
        assert debited == m;
        Update(d.outcome, debited)
      else
        Update(d.outcome, debited[to := d.balance])
  }

  /** `Bank::payinterest`: an absent id is refused; otherwise the interest
      on the current balance is deposited under the deposit rule, so a
      balance below the divisor gives a refused deposit. */
  function PayInterestTo(m: map<string, int>, id: string): (u: Update)
    ensures id !in m ==> u == Update(Failed(NotFound), m)
    ensures id in m ==> u == DepositTo(m, id, Interest(m[id]))
    ensures id in m ==> (u.outcome == Done <==> m[id] >= InterestDivisor)
    ensures id in m && m[id] < InterestDivisor ==> u == Update(Failed(DepositFailed), m)
  {
    if id !in m then Update(Failed(NotFound), m)
    else DepositTo(m, id, Interest(m[id]))
  }

  // ---------------------------------------------------------------------
  // The sum of all balances
  // ---------------------------------------------------------------------

  /** The sum of all balances in the ledger. */
  ghost function Total(m: map<string, int>): int
    decreases |m.Keys|
  {
    if m == map[] then 0
    else
      var id :| id in m;
      assert (m - {id}).Keys == m.Keys - {id};
      m[id] + Total(m - {id})
  }

  /** Any account can be taken out of the sum first. */
  lemma {:induction false} TotalRemove(m: map<string, int>, id: string)
    requires id in m
    ensures Total(m) == m[id] + Total(m - {id})
    decreases |m.Keys|
  {
    var k :| k in m && Total(m) == m[k] + Total(m - {k});
    if k != id {
      assert (m - {k}).Keys == m.Keys - {k};
      assert (m - {id}).Keys == m.Keys - {id};
      TotalRemove(m - {k}, id);
      TotalRemove(m - {id}, k);
      assert m - {k} - {id} == m - {id} - {k};
    }
  }

  /** Changing one balance changes the sum by exactly the difference. */
  lemma TotalUpdate(m: map<string, int>, id: string, v: int)
    requires id in m
    ensures Total(m[id := v]) == Total(m) - m[id] + v
  {
    TotalRemove(m, id);
    TotalRemove(m[id := v], id);
    assert m[id := v] - {id} == m - {id};
  }

  /** Moving an amount from one account to another keeps the sum. */
  lemma TotalMove(m: map<string, int>, amount: int, from: string, to: string)
    requires from in m && to in m && from != to
    ensures Total(m[from := m[from] - amount][to := m[to] + amount]) == Total(m)
  {
    var debited := m[from := m[from] - amount];
    TotalUpdate(m, from, m[from] - amount);
    TotalUpdate(debited, to, m[to] + amount);
  }

  /** A transfer that succeeds debits `from` and credits `to` by the amount. */
  lemma TransferShape(m: map<string, int>, amount: int, from: string, to: string)
    requires from in m && to in m && from != to && 0 < amount <= m[from]
    ensures TransferBetween(m, amount, from, to).balances == m[from := m[from] - amount][to := m[to] + amount]
  {
  }

  /** A transfer moves money between two accounts and never creates or
      destroys any: the sum of all balances is the same afterwards. */
  lemma TransferPreservesTotal(m: map<string, int>, amount: int, from: string, to: string)
    requires TransferReturns(m, amount, from, to)
    ensures Total(TransferBetween(m, amount, from, to).balances) == Total(m)
  {
    if 0 < amount <= m[from] {
      TransferShape(m, amount, from, to);
      TotalMove(m, amount, from, to);
    }
  }

  /** A transfer whose withdrawal is refused returns that refusal even
      when `to` is `from` itself or absent, and changes nothing. */
  lemma RefusedTransferIgnoresTarget(m: map<string, int>, amount: int, from: string, to: string)
    requires from in m && WithdrawRule(m[from], amount).outcome.Failed?
    ensures TransferReturns(m, amount, from, to)
    ensures TransferBetween(m, amount, from, to) == Update(WithdrawRule(m[from], amount).outcome, m)
  {
  }

  /** Self-transfers from "234" at balance 0: more than the balance, and a
      negative amount. */
  lemma SelfTransferRefused()
    ensures TransferBetween(map["234" := 0], 400, "234", "234") == Update(Failed(Insufficient), map["234" := 0])
    ensures TransferBetween(map["234" := 0], -20, "234", "234") == Update(Failed(WithdrawFailed), map["234" := 0])
  {
  }

  /** A deposit that succeeds adds exactly its amount to the sum of all
      balances, and a withdrawal that succeeds removes exactly its amount. */
  lemma DepositWithdrawTotals(m: map<string, int>, id: string, amount: int)
    ensures DepositTo(m, id, amount).outcome == Done ==>
      Total(DepositTo(m, id, amount).balances) == Total(m) + amount
    ensures WithdrawFrom(m, id, amount).outcome == Done ==>
      Total(WithdrawFrom(m, id, amount).balances) == Total(m) - amount
  {
    if id in m {
      if amount > 0 {
        TotalUpdate(m, id, m[id] + amount);
      }
      if 0 <= amount <= m[id] {
        TotalUpdate(m, id, m[id] - amount);
      }
    }
  }

  // ---------------------------------------------------------------------
  // The records, updated in place
  // ---------------------------------------------------------------------

  /** `Bankaccount`: an account number fixed at creation and a balance. */
  class Account {
    const number: string
    var balance: int

    constructor (number: string, balance: int)
      ensures this.number == number && this.balance == balance
    {
      this.number := number;
      this.balance := balance;
    }

    /** `Bankaccount::deposit` */
    method Deposit(amount: int) returns (r: Outcome)
      modifies this
      ensures Step(r, balance) == DepositRule(old(balance), amount)
    {
      if amount > 0 {
        balance := balance + amount;
        r := Done;
      } else {
        r := Failed(DepositFailed);
      }
    }

    /** `Bankaccount::withdraw` */
    method Withdraw(amount: int) returns (r: Outcome)
      modifies this
      ensures Step(r, balance) == WithdrawRule(old(balance), amount)
    {
      if amount < 0 {
        r := Failed(WithdrawFailed);
      } else if balance < amount {
        r := Failed(Insufficient);
      } else {
        balance := balance - amount;
        r := Done;
      }
    }
  }

  /** `Bank`: account ids mapped to their records. */
  class Bank {
    var accounts: map<string, Account>

    /** Every record is filed under its own account number. Since the
        number never changes, two ids never share a record. */
    ghost predicate Valid()
      reads this
    {
      forall id :: id in accounts ==> accounts[id].number == id
    }

    /** The abstract state: each id with its current balance. */
    function Balances(): (m: map<string, int>)
      reads this, accounts.Values
      ensures m.Keys == accounts.Keys
    {
      map id | id in accounts :: accounts[id].balance
    }

    /** `Bank::new`: an empty ledger. */
    constructor ()
      ensures Valid() && Balances() == map[]
      ensures fresh(accounts.Values)
    {
      accounts := map[];
    }

    /** `Bank::init`: provisions the four fixed accounts. */
    method Init()
      requires Valid()
      modifies this
      ensures Valid()
      ensures Balances() == old(Balances())["123" := 0]["234" := 0]["345" := 200]["456" := 200]
      ensures fresh(accounts.Values - old(accounts.Values))
    {
      ghost var before := accounts.Values;
      AddAccount("123", 0);
      assert fresh(accounts.Values - before);
      ghost var b1 := Balances();
      AddAccount("234", 0);
      assert fresh(accounts.Values - before);
      ghost var b2 := Balances();
      assert b2 == b1["234" := 0];
      AddAccount("345", 200);
      assert fresh(accounts.Values - before);
      ghost var b3 := Balances();
      assert b3 == b2["345" := 200];
      AddAccount("456", 200);
    }

    /** `Bank::add_account`: inserts a fresh record, replacing any record
        filed under the same id; no other account changes. */
    method AddAccount(id: string, amount: int)
      requires Valid()
      modifies this
      ensures Valid()
      ensures Balances() == old(Balances())[id := amount]
      ensures CheckAccount(id) && ShowBalance(id) == amount
      ensures fresh(accounts.Values - old(accounts.Values))
    {
      var record := new Account(id, amount);
      accounts := accounts[id := record];
    }

    /** `Bank::check_account`: membership in the ledger. */
    function CheckAccount(id: string): (present: bool)
      reads this, accounts.Values
      ensures present <==> id in Balances()
    {
      id in accounts
    }

    /** `Bank::showbalance`: the balance of a present account (the source
        panics on an absent one). */
    function ShowBalance(id: string): (b: int)
      requires id in accounts
      reads this, accounts.Values
      ensures id in Balances() && b == Balances()[id]
    {
      accounts[id].balance
    }

    /** `Bank::get_accounts`: one (id, balance) pair per account, each id
        once, in no particular order. */
    method GetAccounts() returns (r: seq<(string, int)>)
      ensures |r| == |Balances()|
      ensures forall i :: 0 <= i < |r| ==> r[i].0 in Balances() && r[i].1 == Balances()[r[i].0]
      ensures forall id :: id in Balances() ==> exists i :: 0 <= i < |r| && r[i].0 == id
      ensures forall i, j :: 0 <= i < j < |r| ==> r[i].0 != r[j].0
    {
      var pending := accounts.Keys;
      r := [];
      while pending != {}
        invariant pending <= accounts.Keys
        invariant forall i :: 0 <= i < |r| ==> r[i].0 in accounts && r[i].0 !in pending
        invariant forall i :: 0 <= i < |r| ==> r[i].1 == accounts[r[i].0].balance
        invariant forall id :: id in accounts ==> id in pending || exists i :: 0 <= i < |r| && r[i].0 == id
        invariant forall i, j :: 0 <= i < j < |r| ==> r[i].0 != r[j].0
        invariant |r| + |pending| == |accounts.Keys|
        decreases pending
      {
        var id :| id in pending;
        ghost var listed := r;
        r := r + [(id, accounts[id].balance)];
        forall k | k in accounts && k !in pending - {id}
          ensures exists i :: 0 <= i < |r| && r[i].0 == k
        {
          if k == id {
            assert r[|r| - 1].0 == k;
          } else {
            var i :| 0 <= i < |listed| && listed[i].0 == k;
            assert r[i].0 == k;
          }
        }
        pending := pending - {id};
      }
    }

    /** `Bank::deposit` */
    method Deposit(id: string, amount: int) returns (r: Outcome)
      requires Valid()
      modifies accounts.Values
      ensures Valid()
      ensures Update(r, Balances()) == DepositTo(old(Balances()), id, amount)
    {
      if id !in accounts {
        return Failed(NotFound);
      }
      r := accounts[id].Deposit(amount);
      assert Balances() == old(Balances())[id := accounts[id].balance];
    }

    /** `Bank::withdraw` */
    method Withdraw(id: string, amount: int) returns (r: Outcome)
      requires Valid()
      modifies accounts.Values
      ensures Valid()
      ensures Update(r, Balances()) == WithdrawFrom(old(Balances()), id, amount)
    {
      if id !in accounts {
        return Failed(NotFound);
      }
      r := accounts[id].Withdraw(amount);
      assert Balances() == old(Balances())[id := accounts[id].balance];
    }

    /** `Bank::transfer`: two successive in-place updates, the withdrawal
        on `from` and then, if it succeeded, the deposit on `to`, which is
        looked up only then. */
    method Transfer(amount: int, from: string, to: string) returns (r: Outcome)
      requires Valid()
      requires TransferReturns(Balances(), amount, from, to)
      modifies accounts.Values
      ensures Valid()
      ensures Update(r, Balances()) == TransferBetween(old(Balances()), amount, from, to)
    {
      var source := accounts[from];
      r := source.Withdraw(amount);
      if r.Failed? {
        assert Balances() == old(Balances());
        return;
      }
      assert Balances() == old(Balances())[from := source.balance];
      ghost var debited := Balances();
      var target := accounts[to];
      r := target.Deposit(amount);
      assert Balances() == debited[to := target.balance];
    }

    /** `Bank::payroll`: a deposit of the payroll amount. */
    method Payroll(id: string) returns (r: Outcome)
      requires Valid()
      modifies accounts.Values
      ensures Valid()
      ensures Update(r, Balances()) == DepositTo(old(Balances()), id, PayrollAmount)
    {
      r := Deposit(id, PayrollAmount);
    }

    /** `Bank::payinterest` */
    method PayInterest(id: string) returns (r: Outcome)
      requires Valid()
      modifies accounts.Values
      ensures Valid()
      ensures Update(r, Balances()) == PayInterestTo(old(Balances()), id)
    {
      if id !in accounts {
        return Failed(NotFound);
      }
      var amount := TruncDiv(ShowBalance(id), InterestDivisor);
      r := accounts[id].Deposit(amount);
      assert Balances() == old(Balances())[id := accounts[id].balance];
    }
  }

  // ---------------------------------------------------------------------
  // Clients of the ledger
  // ---------------------------------------------------------------------

  /** On a freshly provisioned ledger, 200 moves from "345" to "123" and
      back: both transfers succeed and the balances return to 0 and 200. */
  method TransferRoundScenario() returns (there: Outcome, back: Outcome, b123: int, b345: int)
    ensures there == Done && back == Done
    ensures b123 == 0 && b345 == 200
  {
    var bank := new Bank();
    bank.Init();
    there := bank.Transfer(200, "345", "123");
    back := bank.Transfer(200, "123", "345");
    b123 := bank.ShowBalance("123");
    b345 := bank.ShowBalance("345");
  }

  /** On a freshly provisioned ledger, transfers of 400 and of -20 from
      "234" to "123" are refused with "余额不足" and "取款失败". */
  method TransferRefusedScenario() returns (tooMuch: Outcome, negative: Outcome)
    ensures tooMuch == Failed(Insufficient) && negative == Failed(WithdrawFailed)
  {
    var bank := new Bank();
    bank.Init();
    tooMuch := bank.Transfer(400, "234", "123");
    negative := bank.Transfer(-20, "234", "123");
  }

  /** On a freshly provisioned ledger, a deposit of 200 into "123" succeeds
      and shows; a negative deposit is refused with "存款失败", and a deposit
      into an unknown account reports "账户不存在". */
  method DepositScenario() returns (deposited: Outcome, shown: int, refused: Outcome, unknown: Outcome)
    ensures deposited == Done && shown == 200
    ensures refused == Failed(DepositFailed) && unknown == Failed(NotFound)
  {
    var bank := new Bank();
    bank.Init();
    deposited := bank.Deposit("123", 200);
    shown := bank.ShowBalance("123");
    refused := bank.Deposit("123", -20);
    unknown := bank.Deposit("3245", -20);
  }

  /** On a freshly provisioned ledger, 200 comes out of "345"; from "123"
      -20 is refused with "取款失败" and 400 with "余额不足"; an unknown
      account reports "账户不存在". */
  method WithdrawScenario() returns (taken: Outcome, negative: Outcome, tooMuch: Outcome, unknown: Outcome)
    ensures taken == Done
    ensures negative == Failed(WithdrawFailed) && tooMuch == Failed(Insufficient)
    ensures unknown == Failed(NotFound)
  {
    var bank := new Bank();
    bank.Init();
    assert bank.Balances()["123"] == 0 && "3435" !in bank.Balances();
    taken := bank.Withdraw("345", 200);
    assert bank.Balances()["123"] == 0 && "3435" !in bank.Balances();
    negative := bank.Withdraw("123", -20);
    tooMuch := bank.Withdraw("123", 400);
    unknown := bank.Withdraw("3435", 400);
  }

  /** On a freshly provisioned ledger, payroll into "123" and interest on
      "345" succeed, and both report "账户不存在" for an unknown account. */
  method PayrollScenario() returns (paid: Outcome, unpaid: Outcome, interest: Outcome, noInterest: Outcome)
    ensures paid == Done && unpaid == Failed(NotFound)
    ensures interest == Done && noInterest == Failed(NotFound)
  {
    var bank := new Bank();
    bank.Init();
    assert "111" !in bank.Balances() && bank.Balances()["345"] == 200;
    paid := bank.Payroll("123");
    assert "111" !in bank.Balances() && bank.Balances()["345"] == 200;
    unpaid := bank.Payroll("111");
    assert "111" !in bank.Balances() && bank.Balances()["345"] == 200;
    interest := bank.PayInterest("345");
    noInterest := bank.PayInterest("111");
  }
}
