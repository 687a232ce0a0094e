/** A sequential model of the two-tier priority channel of
    src/util/priority_async_channel.rs.

    The shared state is a double-ended queue with two counters, the live
    senders and the live receivers. `Sender` and `Receiver` are handles onto
    one `Shared` object. The mutex, the condition variable and the atomics
    are left out: a receive that would wait returns `WouldBlock` with the
    state unchanged, and each wake-up the source requests is returned as a
    boolean.
 */
module PriorityChannel {

  datatype Option<T> = None | Some(value: T)

  /** The result of `send`: the "no receiver" error, or success together
      with whether one blocked receiver is woken (`notify_one`). */
  datatype SendResult = NoReceiver | Sent(wakeOne: bool)

  /** One pass of `recv`: the front item, the "no sender!" error, or a wait
      on the condition variable (the caller retries after a wake-up). */
  datatype Received<T> = Item(value: T) | NoSender | WouldBlock

  /** `Iterator::next` either yields a value or would block. */
  datatype Poll<R> = Ready(value: R) | Pending

  /** One `send(item, high_priority)` call, for stating laws over batches. */
  datatype Message<T> = Message(item: T, urgent: bool)

  // ---------------------------------------------------------------------
  // The queue discipline
  // ---------------------------------------------------------------------

  /** The queue after one send: an urgent item goes to the front, a normal
      item to the back, and every queued item keeps its relative order. */
  function Inserted<T>(q: seq<T>, t: T, urgent: bool): (r: seq<T>)
    ensures |r| == |q| + 1
    ensures urgent ==> r[0] == t && r[1..] == q
    ensures !urgent ==> r[|q|] == t && r[..|q|] == q
    ensures multiset(r) == multiset(q) + multiset{t}
  {
    if urgent then [t] + q else q + [t]
  }

  /** The queue after a batch of sends with no receive in between. */
  function AfterSends<T>(q: seq<T>, batch: seq<Message<T>>): seq<T>
    decreases |batch|
  {
    if batch == [] then q
    else AfterSends(Inserted(q, batch[0].item, batch[0].urgent), batch[1..])
  }

  /** The items of a batch, in sending order. */
  function Items<T>(batch: seq<Message<T>>): seq<T>
  {
    if batch == [] then [] else [batch[0].item] + Items(batch[1..])
  }

  /** The items of the urgent sends of a batch, in sending order. */
  function UrgentItems<T>(batch: seq<Message<T>>): seq<T>
  {
    if batch == [] then []
    else if batch[0].urgent then [batch[0].item] + UrgentItems(batch[1..])
    else UrgentItems(batch[1..])
  }

  /** The items of the normal sends of a batch, in sending order. */
  function NormalItems<T>(batch: seq<Message<T>>): seq<T>
  {
    if batch == [] then []
    else if batch[0].urgent then NormalItems(batch[1..])
    else [batch[0].item] + NormalItems(batch[1..])
  }

  function Reverse<T>(s: seq<T>): seq<T>
  {
    if s == [] then [] else Reverse(s[1..]) + [s[0]]
  }

  /** The ordering law of the channel: after a batch of sends, the urgent
      items stand at the front in reverse sending order, then the items that
      were already queued, then the normal items in sending order. Since
      `recv` takes from the front, this is also the order of receipt. */
  lemma {:induction false} OrderingLaw<T>(q: seq<T>, batch: seq<Message<T>>)
    ensures AfterSends(q, batch) == Reverse(UrgentItems(batch)) + q + NormalItems(batch)
    decreases |batch|
  {
    if batch != [] {
      var m, rest := batch[0], batch[1..];
      var q' := Inserted(q, m.item, m.urgent);
      assert AfterSends(q, batch) == AfterSends(q', rest);
      OrderingLaw(q', rest);
      var u, n := UrgentItems(rest), NormalItems(rest);
      if m.urgent {
        assert UrgentItems(batch) == [m.item] + u;
        assert NormalItems(batch) == n;
        ReverseCons(m.item, u);
        assert Reverse(u) + ([m.item] + q) + n == (Reverse(u) + [m.item]) + q + n;
      } else {
        assert UrgentItems(batch) == u;
        assert NormalItems(batch) == [m.item] + n;
        assert Reverse(u) + (q + [m.item]) + n == Reverse(u) + q + ([m.item] + n);
      }
    }
  }

  lemma ReverseCons<T>(x: T, s: seq<T>)
    ensures Reverse([x] + s) == Reverse(s) + [x]
  {
    assert ([x] + s)[1..] == s;
  }

  /** Normal sends alone are received first-in, first-out. */
  lemma {:induction false} NormalSendsAreFifo<T>(q: seq<T>, batch: seq<Message<T>>)
    requires forall i :: 0 <= i < |batch| ==> !batch[i].urgent
    ensures AfterSends(q, batch) == q + Items(batch)
  {
    OrderingLaw(q, batch);
    NormalOnly(batch);
    assert Reverse(UrgentItems(batch)) == [];
  }

  lemma {:induction false} NormalOnly<T>(batch: seq<Message<T>>)
    requires forall i :: 0 <= i < |batch| ==> !batch[i].urgent
    ensures UrgentItems(batch) == [] && NormalItems(batch) == Items(batch)
  {
    if batch != [] {
      NormalOnly(batch[1..]);
    }
  }

  /** No send loses or duplicates an item: the queue afterwards holds the
      items it held before and every sent item, each exactly once. */
  lemma {:induction false} SendsKeepEveryItem<T>(q: seq<T>, batch: seq<Message<T>>)
    ensures multiset(AfterSends(q, batch)) == multiset(q) + multiset(Items(batch))
    decreases |batch|
  {
    if batch != [] {
      SendsKeepEveryItem(Inserted(q, batch[0].item, batch[0].urgent), batch[1..]);
      assert Items(batch) == [batch[0].item] + Items(batch[1..]);
    }
  }

  /** Normal A, urgent B, urgent C and normal D are queued as C, B, A, D. */
  lemma UrgentSendsReverse()
    ensures AfterSends([], [Message('A', false), Message('B', true), Message('C', true), Message('D', false)])
      == ['C', 'B', 'A', 'D']
  {
    var batch := [Message('A', false), Message('B', true), Message('C', true), Message('D', false)];
    var rest := [Message('B', true), Message('C', true), Message('D', false)];
    assert batch[1..] == rest;
    assert rest[1..] == [Message('C', true), Message('D', false)];
    assert rest[1..][1..] == [Message('D', false)];
    OrderingLaw([], batch);
    assert UrgentItems(batch) == ['B', 'C'];
    assert NormalItems(batch) == ['A', 'D'];
    ReverseCons('B', ['C']);
  }

  /** Of the messages queued, every urgent one stands before every normal
      one. */
  predicate UrgentFirst<T>(q: seq<Message<T>>)
  {
    forall i, j :: 0 <= i < j < |q| && q[j].urgent ==> q[i].urgent
  }

  /** A send keeps the urgent messages ahead of the normal ones. */
  lemma SendKeepsUrgentFirst<T>(q: seq<Message<T>>, m: Message<T>)
    requires UrgentFirst(q)
    ensures UrgentFirst(Inserted(q, m, m.urgent))
  {
  }

  /** A receive, which removes the front, keeps them ahead as well. */
  lemma RecvKeepsUrgentFirst<T>(q: seq<Message<T>>)
    requires UrgentFirst(q) && q != []
    ensures UrgentFirst(q[1..])
  {
  }

  /** One call on the channel: a send or a receive. */
  datatype Op<T> = SendOp(message: Message<T>) | RecvOp

  /** The queue after any interleaving of sends and receives; a receive on
      an empty queue leaves it empty. */
  function Run<T>(q: seq<Message<T>>, ops: seq<Op<T>>): seq<Message<T>>
    decreases |ops|
  {
    if ops == [] then q
    else
      var next := match ops[0]
        case SendOp(m) => Inserted(q, m, m.urgent)
        case RecvOp => if q == [] then q else q[1..];
      Run(next, ops[1..])
  }

  /** Under any interleaving of sends and receives, urgent messages stay
      ahead of normal ones. */
  lemma {:induction false} RunKeepsUrgentFirst<T>(q: seq<Message<T>>, ops: seq<Op<T>>)
    requires UrgentFirst(q)
    ensures UrgentFirst(Run(q, ops))
    decreases |ops|
  {
    if ops != [] {
      match ops[0]
      case SendOp(m) =>
        SendKeepsUrgentFirst(q, m);
        RunKeepsUrgentFirst(Inserted(q, m, m.urgent), ops[1..]);
      case RecvOp =>
        if q != [] {
          RecvKeepsUrgentFirst(q);
        }
        RunKeepsUrgentFirst(if q == [] then q else q[1..], ops[1..]);
    }
  }

  /** So a receive takes an urgent message whenever one is queued: no normal
      message is dequeued while an urgent one is present. */
  lemma UrgentDequeuedFirst<T>(ops: seq<Op<T>>, j: nat)
    requires j < |Run([], ops)| && Run([], ops)[j].urgent
    ensures Run([], ops)[0].urgent
  {
    RunKeepsUrgentFirst([], ops);
  }

  // ---------------------------------------------------------------------
  // The shared state and its two handles
  // ---------------------------------------------------------------------

  /** `Shared`: the queue and the live sender and receiver counts. */
  class Shared<T> {
    var queue: seq<T>
    var sendersNum: nat
    var receiversNum: nat

    /** `Default for Shared`: an empty queue, one sender and one receiver. */
    constructor ()
      ensures queue == [] && sendersNum == 1 && receiversNum == 1
    {
      queue := [];
      sendersNum := 1;
      receiversNum := 1;
    }
  }

  class Sender<T> {
    const shared: Shared<T>

    constructor (shared: Shared<T>)
      ensures this.shared == shared
    {
      this.shared := shared;
    }

    /** `Sender::send`: refused when no receiver is left; otherwise the item
        goes to the front (urgent) or the back (normal), and one receiver is
        woken exactly when the queue was empty before. */
    method Send(t: T, highPriority: bool) returns (r: SendResult)
      modifies shared
      ensures shared.sendersNum == old(shared.sendersNum)
      ensures shared.receiversNum == old(shared.receiversNum)
      ensures old(shared.receiversNum) == 0 ==> r == NoReceiver && shared.queue == old(shared.queue)
      ensures old(shared.receiversNum) > 0 ==>
        r == Sent(old(shared.queue) == []) && shared.queue == Inserted(old(shared.queue), t, highPriority)
    {
      if ReceiversNum() == 0 {
        return NoReceiver;
      }
      var wasEmpty := shared.queue == [];
      if !highPriority {
        shared.queue := shared.queue + [t];
      } else {
        shared.queue := [t] + shared.queue;
      }
      r := Sent(wasEmpty);
    }

    /** `Sender::get_receivers_num`: the live receivers, read without
        changing anything; `Send` is refused exactly when it is zero. */
    function ReceiversNum(): (n: nat)
      reads shared
      ensures n == shared.receiversNum
    {
      shared.receiversNum
    }

    /** `Sender::get_queued_items`: the number of items waiting. */
    function QueuedItems(): (n: nat)
      reads shared
      ensures n == 0 <==> shared.queue == []
      ensures n == |shared.queue|
    {
      |shared.queue|
    }

    /** `Clone for Sender`: a new handle onto the same shared state, counted
        as one more live sender. */
    method Clone() returns (s: Sender<T>)
      modifies shared
      ensures fresh(s) && s.shared == shared
      ensures shared.sendersNum == old(shared.sendersNum) + 1
      ensures shared.receiversNum == old(shared.receiversNum)
      ensures shared.queue == old(shared.queue)
    {
      shared.sendersNum := shared.sendersNum + 1;
      s := new Sender(shared);
    }

    /** `Drop for Sender`: one live sender fewer; when it was the last one,
        every blocked receiver is woken (`notify_all`) so that it can see
        the "no sender" condition. A live sender is always counted, so the
        count is at least one here. */
    method Drop() returns (notifyAll: bool)
      requires shared.sendersNum >= 1
      modifies shared
      ensures shared.sendersNum == old(shared.sendersNum) - 1
      ensures notifyAll <==> old(shared.sendersNum) <= 1
      ensures notifyAll <==> shared.sendersNum == 0
      ensures shared.receiversNum == old(shared.receiversNum)
      ensures shared.queue == old(shared.queue)
    {
      var previous := shared.sendersNum;
      shared.sendersNum := shared.sendersNum - 1;
      notifyAll := previous <= 1;
    }
  }

  class Receiver<T> {
    const shared: Shared<T>

    constructor (shared: Shared<T>)
      ensures this.shared == shared
    {
      this.shared := shared;
    }

    /** `Receiver::recv`, one pass of its loop: the front item is removed
        and returned; an empty queue is an error once no sender is left,
        and otherwise a wait that changes nothing. */
    method Recv() returns (r: Received<T>)
      modifies shared
      ensures shared.sendersNum == old(shared.sendersNum)
      ensures shared.receiversNum == old(shared.receiversNum)
      ensures old(shared.queue) != [] ==>
        r == Item(old(shared.queue)[0]) && shared.queue == old(shared.queue)[1..]
      ensures old(shared.queue) == [] ==> shared.queue == []
      ensures old(shared.queue) == [] && shared.sendersNum == 0 ==> r == NoSender
      ensures old(shared.queue) == [] && shared.sendersNum > 0 ==> r == WouldBlock
    {
      if shared.queue != [] {
        r := Item(shared.queue[0]);
        shared.queue := shared.queue[1..];
      } else if SendersNum() == 0 {
        r := NoSender;
      } else {
        r := WouldBlock;
      }
    }

    /** `Receiver::get_senders_num`: the live senders, read without
        changing anything; `Recv` on an empty queue reports no sender
        exactly when it is zero. */
    function SendersNum(): (n: nat)
      reads shared
      ensures n == shared.sendersNum
    {
      shared.sendersNum
    }

    /** `Iterator::next`: `recv` with its error mapped to `None`. */
    method Next() returns (r: Poll<Option<T>>)
      modifies shared
      ensures shared.sendersNum == old(shared.sendersNum)
      ensures shared.receiversNum == old(shared.receiversNum)
      ensures old(shared.queue) != [] ==>
        r == Ready(Some(old(shared.queue)[0])) && shared.queue == old(shared.queue)[1..]
      ensures old(shared.queue) == [] ==> shared.queue == []
      ensures old(shared.queue) == [] && shared.sendersNum == 0 ==> r == Ready(None)
      ensures old(shared.queue) == [] && shared.sendersNum > 0 ==> r == Pending
    {
      var received := Recv();
      match received
      case Item(v) => r := Ready(Some(v));
      case NoSender => r := Ready(None);
      case WouldBlock => r := Pending;
    }

    /** `Drop for Receiver`: one live receiver fewer, and nothing else. A
        live receiver is always counted, so the count is at least one here. */
    method Drop()
      requires shared.receiversNum >= 1
      modifies shared
      ensures shared.receiversNum == old(shared.receiversNum) - 1
      ensures shared.sendersNum == old(shared.sendersNum)
      ensures shared.queue == old(shared.queue)
    {
      shared.receiversNum := shared.receiversNum - 1;
    }
  }

  /** `async_channel`: one sender and one receiver on a fresh shared state. */
  method AsyncChannel<T>() returns (s: Sender<T>, r: Receiver<T>)
    ensures fresh(s) && fresh(r) && fresh(s.shared) && r.shared == s.shared
    ensures s.shared.queue == [] && s.shared.sendersNum == 1 && s.shared.receiversNum == 1
  {
    var shared := new Shared();
    s := new Sender(shared);
    r := new Receiver(shared);
  }

  /** Normal A, urgent B, urgent C and normal D sent on a fresh channel are
      received as C, B, A, D, and a fifth receive after the only sender is
      dropped reports that no sender is left. */
  method UrgentOrderScenario() returns (got: seq<char>, last: Received<char>)
    ensures got == ['C', 'B', 'A', 'D']
    ensures last == NoSender
  {
    var s, r := AsyncChannel<char>();
    var _ := s.Send('A', false);
    var _ := s.Send('B', true);
    var _ := s.Send('C', true);
    var _ := s.Send('D', false);
    assert s.shared.queue == ['C', 'B', 'A', 'D'];
    var c := r.Recv();
    assert c == Item('C') && s.shared.queue == ['B', 'A', 'D'];
    var b := r.Recv();
    assert b == Item('B') && s.shared.queue == ['A', 'D'];
    var a := r.Recv();
    assert a == Item('A') && s.shared.queue == ['D'];
    var d := r.Recv();
    assert d == Item('D') && s.shared.queue == [];
    got := [c.value, b.value, a.value, d.value];
    var _ := s.Drop();
    last := r.Recv();
  }
}
