/** A bounded first-in first-out buffer whose push may be refused. */
module Ring {
  import opened Domain

  class SpscRing<T> {
    const capacity: nat
    var items: seq<T>

    constructor (capacity: nat)
      ensures this.capacity == capacity && items == []
    {
      this.capacity, items := capacity, [];
    }

    method TryPush(x: T) returns (ok: bool)
      modifies this
      ensures ok == (|old(items)| < capacity)
      ensures items == if ok then old(items) + [x] else old(items)
    {
      ok := |items| < capacity;
      if ok { items := items + [x]; }
    }

    method TryPop() returns (x: Option<T>)
      modifies this
      ensures x == if old(items) == [] then None else Some(old(items)[0])
      ensures items == if old(items) == [] then [] else old(items)[1..]
    {
      if |items| == 0 { return None; }
      x := Some(items[0]);
      items := items[1..];
    }
  }

  /** Push from a tape until the ring is full or the tape is exhausted: the ring then holds exactly the
      stretch of the tape from the next element to process to the next one to push. */
  method TopUp<T>(ring: SpscRing<T>, tape: seq<T>, processed: nat, from: nat) returns (next: nat)
    requires processed <= from <= |tape| && ring.items == tape[processed..from] && ring.capacity > 0
    modifies ring
    ensures from <= next <= |tape| && ring.items == tape[processed..next]
    ensures processed < |tape| ==> processed < next
  {
    next := from;
    var pushed := true;
    while next < |tape| && pushed
      invariant from <= next <= |tape| && ring.items == tape[processed..next]
      invariant !pushed ==> next > processed
      decreases |tape| - next, pushed
    {
      pushed := ring.TryPush(tape[next]);
      if pushed { next := next + 1; }
    }
  }
}
