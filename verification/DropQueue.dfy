/** A bounded queue whose single producer drops the oldest item when it is full
    (src/hardware/serial_router.py `_put_nowait`), against a consumer that may act at any moment. */
module DropQueue {
  import opened Basics

  /** How an item left the queue. */
  datatype Fate = Delivered | Evicted | Flushed

  /** Where the producer is: between items, after `put_nowait` raised Full, after making room. */
  datatype Producer<T> = Free | SawFull(item: T) | MadeRoom(item: T)

  /** The queue and its history: items put, how the first |fates| of them left, items given up. */
  datatype Queue<T> = Queue(items: seq<T>, producer: Producer<T>, puts: seq<T>, fates: seq<Fate>, givenUp: nat)

  function Empty<T>(): Queue<T> { Queue([], Free, [], [], 0) }

  datatype Op<T> = TryPut(item: T) | MakeRoom | PutAgain | Get | FlushOne

  predicate Allowed<T>(q: Queue<T>, op: Op<T>) {
    match op
    case TryPut(_) => q.producer.Free?
    case MakeRoom => q.producer.SawFull?
    case PutAgain => q.producer.MadeRoom?
    case Get => q.items != []
    case FlushOne => q.items != []
  }

  function Take<T>(q: Queue<T>, fate: Fate): Queue<T>
    requires q.items != []
  {
    q.(items := q.items[1..], fates := q.fates + [fate])
  }

  function Put<T>(q: Queue<T>, item: T): Queue<T> {
    q.(items := q.items + [item], puts := q.puts + [item], producer := Free)
  }

  function Apply<T>(q: Queue<T>, op: Op<T>, cap: nat): Queue<T>
    requires Allowed(q, op)
  {
    match op
    case TryPut(item) => if |q.items| < cap then Put(q, item) else q.(producer := SawFull(item))
    case MakeRoom =>
      var q1 := if q.items != [] then Take(q, Evicted) else q;
      q1.(producer := MadeRoom(q.producer.item))
    case PutAgain =>
      if |q.items| < cap then Put(q, q.producer.item) else q.(producer := Free, givenUp := q.givenUp + 1)
    case Get => Take(q, Delivered)
    case FlushOne => Take(q, Flushed)
  }

  ghost predicate Inv<T>(q: Queue<T>, cap: nat) {
    && |q.items| <= cap
    && |q.fates| <= |q.puts| && q.items == q.puts[|q.fates|..]
    && q.givenUp == 0
    && (q.producer.MadeRoom? ==> |q.items| < cap)
  }

  lemma ApplyKeepsInv<T>(q: Queue<T>, op: Op<T>, cap: nat)
    requires cap > 0 && Inv(q, cap) && Allowed(q, op)
    ensures Inv(Apply(q, op, cap), cap)
    ensures q.puts <= Apply(q, op, cap).puts && q.fates <= Apply(q, op, cap).fates
    ensures op.TryPut? && Apply(q, op, cap).producer.Free? ==> Last(Apply(q, op, cap).items) == op.item
    ensures op.PutAgain? ==> Apply(q, op, cap).items != [] && Last(Apply(q, op, cap).items) == q.producer.item
  {
  }

  ghost predicate AllAllowed<T>(q: Queue<T>, ops: seq<Op<T>>, cap: nat)
    decreases |ops|
  {
    ops == [] || (Allowed(q, ops[0]) && AllAllowed(Apply(q, ops[0], cap), ops[1..], cap))
  }

  function Run<T>(q: Queue<T>, ops: seq<Op<T>>, cap: nat): Queue<T>
    requires AllAllowed(q, ops, cap)
    decreases |ops|
  {
    if ops == [] then q else Run(Apply(q, ops[0], cap), ops[1..], cap)
  }

  /** For every interleaving and positive capacity: the size stays within capacity, no item is given up, what has
      left is exactly a prefix of what was put, each item once, and the queue is the rest of it. */
  lemma {:induction false} DropOldest<T>(q: Queue<T>, ops: seq<Op<T>>, cap: nat)
    requires cap > 0 && Inv(q, cap) && AllAllowed(q, ops, cap)
    ensures var r := Run(q, ops, cap);
      && |r.items| <= cap && r.givenUp == 0
      && |r.fates| + |r.items| == |r.puts| && r.items == r.puts[|r.fates|..]
      && Inv(r, cap)
    decreases |ops|
  {
    if ops != [] {
      ApplyKeepsInv(q, ops[0], cap);
      DropOldest(Apply(q, ops[0], cap), ops[1..], cap);
    }
  }

  /** With capacity 0 the claim fails: the newest item is given up. */
  lemma ZeroCapacityGivesUp(item: int)
    ensures AllAllowed(Empty<int>(), [TryPut(item), MakeRoom, PutAgain], 0)
    ensures Run(Empty<int>(), [TryPut(item), MakeRoom, PutAgain], 0).givenUp == 1
  {
    var ops: seq<Op<int>> := [TryPut(item), MakeRoom, PutAgain];
    var q1 := Apply(Empty<int>(), ops[0], 0);
    var q2 := Apply(q1, ops[1], 0);
    var q3 := Apply(q2, ops[2], 0);
    assert ops[1..][1..][1..] == [];
    assert AllAllowed(q3, ops[1..][1..][1..], 0);
    assert AllAllowed(q2, ops[1..][1..], 0);
    assert AllAllowed(q1, ops[1..], 0);
    assert Run(q1, ops[1..], 0) == Run(q2, ops[1..][1..], 0) == q3;
  }
}
