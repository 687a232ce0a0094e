# Bank ledger and priority channel — a Dafny model

This project models the two sequential cores of a small Rust banking
simulator, each as a single-threaded state machine.

- **The ledger** (`bank.dfy`, module `Bank`). A `Bankaccount` record holds an
  account number and a balance. Its `deposit` accepts only positive amounts.
  Its `withdraw` refuses a negative amount ("取款失败") and then an amount above
  the balance ("余额不足"). The `Bank` maps account ids to records. It adds
  `check_account`, `add_account`, `showbalance` and `get_accounts`, and it
  also runs `deposit` and `withdraw` by id. `transfer` is a withdrawal followed by a
  deposit. `payroll` deposits 200. `payinterest` deposits a tenth of the
  balance. Records are objects whose balance is updated in place, and every
  `Bank` method is proved against a pure transition function on the
  abstract view `map<string, int>`. The ledger's laws are lemmas about those
  functions: failures change nothing, only the named account changes, and a
  transfer preserves the sum of all balances.
- **The priority channel** (`priority_channel.dfy`, module
  `PriorityChannel`). A `Shared` state holds a queue and the live-sender and
  live-receiver counts, and `Sender` and `Receiver` are handles onto it.
  `send` refuses when no receiver is left. Otherwise it puts a normal item at
  the back and an urgent item at the front, and it asks to wake one receiver
  exactly when the queue was empty. `recv` takes the front item. On an empty
  queue it reports "no sender" once every sender is gone, and otherwise it waits.
  The ordering law is proved for any batch of sends: the urgent items come
  first in reverse order of sending, then the items already queued, then the
  normal items in order of sending.

Error strings are datatype constructors: "账户不存在" is `NotFound`, "存款失败"
is `DepositFailed`, "取款失败" is `WithdrawFailed`, "余额不足" is
`Insufficient`, "no receiver" is `NoReceiver` and "no sender!" is `NoSender`.

Two behaviours of the code are easy to miss, and the model keeps both:

- In the code, `transfer(0, from, to)` first withdraws 0, which succeeds, and
  then fails in the deposit step with "存款失败", so that deposit step can fail.
  With a negative `from` balance, which `add_account` allows, the withdrawal of 0
  already fails with "余额不足".
- The interest is `balance / 10` in `i32` arithmetic, which rounds toward zero,
  not down (`TruncDiv`). The outcome is the same either way: the interest is
  positive exactly when the balance is at least 10.

## Model

| member | source | states |
|---|---|---|
| `Bank.DepositRule` | src/util/bank.rs:123-130 | a deposit succeeds exactly for a positive amount, and then adds exactly that amount; otherwise it fails with "存款失败" and leaves the balance unchanged; a balance never decreases |
| `Bank.WithdrawRule` | src/util/bank.rs:132-141 | a negative amount fails with "取款失败", then an amount above the balance fails with "余额不足", both leaving the balance unchanged; it succeeds exactly when 0 <= amount <= balance and then takes off exactly the amount; a non-negative balance stays non-negative |
| `Bank.TruncDiv` | src/util/bank.rs:107 | the quotient rounds toward zero: for a >= 0, q*d <= a < q*d + d; for a < 0, q*d - d < a <= q*d |
| `Bank.Interest` | src/util/bank.rs:103-115 | the interest (balance divided by 10, rounded toward zero) is positive exactly when the balance is at least 10 |
| `Bank.DepositTo` | src/util/bank.rs:54-65 | an absent id fails with "账户不存在" and changes nothing; otherwise the account rule decides for the named account; no other account changes, no account is added, and any failure leaves every balance unchanged |
| `Bank.WithdrawFrom` | src/util/bank.rs:67-78 | the same for a withdrawal: "账户不存在" for an absent id, only the named account can change, and a failure changes nothing |
| `Bank.TransferBetween` | src/util/bank.rs:80-96 | for every input on which the source returns (from present; to present and distinct from from whenever the withdrawal succeeds), a transfer succeeds exactly when 0 < amount <= balance of from; then from loses and to gains exactly the amount and no other account changes; a negative amount fails with "取款失败", one above the balance with "余额不足", zero (on a non-negative balance) with "存款失败"; every failure leaves all balances unchanged |
| `Bank.PayInterestTo` | src/util/bank.rs:103-115 | an absent id fails with "账户不存在"; a present one receives a deposit of the interest on its balance, which succeeds exactly when the balance is at least 10 and otherwise fails with "存款失败", changing nothing |
| `Bank.TransferPreservesTotal` | src/util/bank.rs:80-96 | the sum of all balances is the same before and after any transfer that returns |
| `Bank.RefusedTransferIgnoresTarget` | src/util/bank.rs:82-86 | when the withdrawal from a present from is refused, the transfer returns whatever to is (absent, or from itself), with the withdrawal's error and every balance unchanged |
| `Bank.SelfTransferRefused` | src/util/bank.rs:80-96 | transferring 400 from "234" (balance 0) to "234" returns "余额不足", and transferring -20 returns "取款失败", both changing nothing |
| `Bank.DepositWithdrawTotals` | src/util/bank.rs:54-78 | a successful deposit raises the sum of all balances by exactly its amount; a successful withdrawal lowers it by exactly its amount |
| `Bank.Account.constructor` | src/util/bank.rs:44 | a new record holds the given account number and balance |
| `Bank.Account.Deposit` | src/util/bank.rs:123-130 | the in-place deposit returns the outcome and leaves the balance that the deposit rule gives |
| `Bank.Account.Withdraw` | src/util/bank.rs:132-141 | the in-place withdrawal returns the outcome and leaves the balance that the withdrawal rule gives |
| `Bank.Bank.constructor` | src/util/bank.rs:24-26 | a new bank has no accounts, and every record it holds is newly allocated |
| `Bank.Bank.Init` | src/util/bank.rs:28-33 | provisions "123" and "234" with 0 and "345" and "456" with 200; other accounts keep their balances; every record added is newly allocated, so callers may go on to operate on the accounts |
| `Bank.Bank.AddAccount` | src/util/bank.rs:43-45 | inserts or replaces the id with the given balance; afterwards check_account is true and showbalance gives that balance; every other account keeps its balance; the inserted record is newly allocated |
| `Bank.Bank.CheckAccount` | src/util/bank.rs:47-52 | true exactly when the id has an account |
| `Bank.Bank.ShowBalance` | src/util/bank.rs:117-119 | the current balance of a present account |
| `Bank.Bank.GetAccounts` | src/util/bank.rs:35-41 | returns exactly one (id, balance) pair per account: every pair holds a present id with its balance, every id appears, no id appears twice, and the length is the number of accounts |
| `Bank.Bank.Deposit` | src/util/bank.rs:54-65 | the outcome and the new balances are those of DepositTo on the old balances |
| `Bank.Bank.Withdraw` | src/util/bank.rs:67-78 | the outcome and the new balances are those of WithdrawFrom on the old balances |
| `Bank.Bank.Transfer` | src/util/bank.rs:80-96 | with from present, and to present and distinct only when the withdrawal succeeds, the withdrawal and then the deposit on to (looked up only then), done in place, give the outcome and balances of TransferBetween |
| `Bank.Bank.Payroll` | src/util/bank.rs:99-101 | behaves exactly as a deposit of 200 to the same id, "账户不存在" included |
| `Bank.Bank.PayInterest` | src/util/bank.rs:103-115 | the outcome and the new balances are those of PayInterestTo on the old balances |
| `Bank.TransferRoundScenario` | src/util/bank.rs:153-160 | on a freshly provisioned ledger, 200 moves from "345" to "123" and back, both transfers succeed, and the balances are again 0 and 200 |
| `Bank.TransferRefusedScenario` | src/util/bank.rs:163-168 | on a freshly provisioned ledger, transfers of 400 and -20 from "234" to "123" fail with "余额不足" and "取款失败" |
| `Bank.DepositScenario` | src/util/bank.rs:171-184 | on a freshly provisioned ledger, a deposit of 200 into "123" succeeds and shows 200; a deposit of -20 fails with "存款失败"; an unknown account reports "账户不存在" |
| `Bank.WithdrawScenario` | src/util/bank.rs:187-200 | on a freshly provisioned ledger, 200 comes out of "345"; from "123", -20 fails with "取款失败" and 400 with "余额不足"; an unknown account reports "账户不存在" |
| `Bank.PayrollScenario` | src/util/bank.rs:203-210 | on a freshly provisioned ledger, payroll into "123" and interest on "345" succeed, and both report "账户不存在" for an unknown account |
| `PriorityChannel.Inserted` | src/util/priority_async_channel.rs:31-43 | the queue grows by exactly one; an urgent item becomes the front, followed by the old queue; a normal item becomes the back, preceded by the old queue; the queue's contents gain exactly the new item |
| `PriorityChannel.OrderingLaw` | src/util/priority_async_channel.rs:36-40 | after any batch of sends, the queue is the urgent items in reverse sending order, then the old queue, then the normal items in sending order |
| `PriorityChannel.NormalSendsAreFifo` | src/util/priority_async_channel.rs:36-40 | normal sends only are appended in sending order (first in, first out) |
| `PriorityChannel.SendsKeepEveryItem` | src/util/priority_async_channel.rs:31-43 | a batch of sends neither loses nor duplicates an item |
| `PriorityChannel.UrgentSendsReverse` | src/util/priority_async_channel.rs:36-40 | normal A, urgent B, urgent C, normal D are queued as C, B, A, D |
| `PriorityChannel.SendKeepsUrgentFirst` | src/util/priority_async_channel.rs:36-40 | a send keeps every queued urgent item ahead of every queued normal item |
| `PriorityChannel.RecvKeepsUrgentFirst` | src/util/priority_async_channel.rs:69-71 | removing the front, as a receive does, keeps urgent items ahead of normal ones |
| `PriorityChannel.RunKeepsUrgentFirst` | src/util/priority_async_channel.rs:26-86 | under any interleaving of sends and receives, urgent items stay ahead of normal ones |
| `PriorityChannel.UrgentDequeuedFirst` | src/util/priority_async_channel.rs:26-86 | after any interleaving of sends and receives from an empty queue, the front is urgent whenever any urgent item is queued, so no normal item is received while an urgent one waits |
| `PriorityChannel.Shared.constructor` | src/util/priority_async_channel.rs:136-146 | the default shared state has an empty queue, one sender and one receiver |
| `PriorityChannel.AsyncChannel` | src/util/priority_async_channel.rs:127-134 | a fresh sender and a fresh receiver share one fresh state with an empty queue, one sender and one receiver |
| `PriorityChannel.Sender.constructor` | src/util/priority_async_channel.rs:105-107 | a new sender handle refers to exactly the given shared state |
| `PriorityChannel.Receiver.constructor` | src/util/priority_async_channel.rs:131-132 | a new receiver handle refers to exactly the given shared state |
| `PriorityChannel.Sender.ReceiversNum` | src/util/priority_async_channel.rs:53-56 | the live receiver count of the shared state, read without changing it; it is the count on which Send's contract decides a refusal |
| `PriorityChannel.Receiver.SendersNum` | src/util/priority_async_channel.rs:88-90 | the live sender count of the shared state, read without changing it; it is the count on which Recv's contract decides "no sender" |
| `PriorityChannel.Sender.Send` | src/util/priority_async_channel.rs:26-51 | with no receiver, fails and leaves the queue unchanged; otherwise the queue becomes Inserted(old queue, item, urgent) and a wake of one receiver is requested exactly when the old queue was empty; the counts do not change |
| `PriorityChannel.Sender.QueuedItems` | src/util/priority_async_channel.rs:58-62 | the number of queued items, zero exactly when the queue is empty |
| `PriorityChannel.Sender.Clone` | src/util/priority_async_channel.rs:101-109 | a fresh handle onto the same state; the sender count grows by one; the queue and the receiver count are unchanged |
| `PriorityChannel.Sender.Drop` | src/util/priority_async_channel.rs:111-119 | the sender count drops by one; a wake of all receivers is requested exactly when the old count was at most one, that is when no sender is left; the queue and the receiver count are unchanged |
| `PriorityChannel.Receiver.Recv` | src/util/priority_async_channel.rs:66-86 | on a non-empty queue, returns the old front and leaves the rest; on an empty queue, fails with "no sender" when no sender is left and otherwise waits, with the state unchanged |
| `PriorityChannel.Receiver.Next` | src/util/priority_async_channel.rs:93-98 | recv with the item wrapped in Some and the "no sender" error mapped to None; a wait stays a wait |
| `PriorityChannel.Receiver.Drop` | src/util/priority_async_channel.rs:121-125 | the receiver count drops by one; the queue and the sender count are unchanged |
| `PriorityChannel.UrgentOrderScenario` | src/util/priority_async_channel.rs:26-86 | on a fresh channel, normal A, urgent B, urgent C and normal D are received as C, B, A, D; after the only sender is dropped, the next receive reports "no sender" |

## Left out

- src/main.rs is not part of this model. It is the interactive menu, the input parsing, the timing and the console output, and it hydrates and persists balances through `util::btree`, which is not part of this model either.
- src/util/threadpool.rs is not part of this model. It spawns and joins threads and runs a worker loop. Its queue effects are `execute`'s send of each job with the caller's priority, each worker's `recv` through a shared mutex, and the `max_workers` shutdown messages sent at normal priority on drop. Each is a single send or receive, which the channel model covers. The panic of `Pool::new` for zero workers is not modelled.
- Concurrency is not modelled. This covers `try_lock` failing under contention, `Arc` records shared between cloned `Bank`s (the `Clone` of `Bank` is not modelled), atomic memory orderings, condition-variable wake-ups and lock poisoning ("lock error").
- `PriorityChannel.Receiver.Recv`: models one pass of the source's loop. A wait on the condition variable is returned as `WouldBlock` with the state unchanged, and the caller calls again after a wake-up, because the retry happens only after another thread acts.
- `PriorityChannel.Receiver.Next`: a wait is returned as `Pending`, where the source blocks inside `next`.
- Wake-ups (`notify_one`, `notify_all`) are returned as booleans. No blocked thread is modelled.
- `Bank.DepositRule`: balances and amounts are unbounded integers. The `i32` overflow of `balance += amount` is a panic in the source and is not modelled. Neither is the `i32` range of the inputs.
- `PriorityChannel.Sender.Drop`: requires a sender count of at least one, since every live sender is counted. The `usize` wrap-around that `fetch_sub` would give at zero is not modelled.
- `PriorityChannel.Receiver.Drop`: requires a receiver count of at least one, for the same reason.
- `Bank.Bank.ShowBalance` requires the id to be present, because the source `unwrap`s the lookup and panics.
- `Bank.Bank.Transfer` (and `Bank.TransferBetween`) requires `from` to be present, because the source `unwrap`s that lookup first and panics. It requires `to` to be present and distinct from `from` only when the withdrawal succeeds: only then does the source look up `to` (a panic when absent) and `try_lock` it while the guard on `from` is still held (a panic when it is the same record). A refused withdrawal returns its error whatever `to` is, and the model covers that. The guard on `from` is held from the withdrawal through both the lookup and the locking of `to`. So a successful withdrawal towards an absent `to`, or towards `from` itself, panics after the debit with that guard held, which poisons the lock of `from`. Later `try_lock().unwrap()` calls on it then panic too; that state after the panic is not modelled.
- `Bank.Bank.GetAccounts`: the order of the pairs is unspecified, as with `HashMap` iteration. The model may return any order.
- The initial `VecDeque` capacity (32) affects only memory, not behaviour, and is not modelled. The fixed payroll amount and interest divisor are module constants, because no operation changes them after `Bank::new`.
