/** The unbounded FIFO queue: slices recycled through a pool, and a channel that signals a non-empty queue. */
module SliceQueue {
  import opened Wrappers

  // ---------------------------------------------------------------- one queue

  /** What is left of a backing array: the empty slice at `start`, with room up to the array's end. */
  datatype FreeSlice<T> = FreeSlice(buffer: array<T>, start: nat)

  class SliceQueue<T> {
    /** The live slice is buffer[lo..hi]; without a buffer it is nil. */
    var buffer: array?<T>
    var lo: nat
    var hi: nat
    var pool: seq<FreeSlice<T>>
    const zero: T

    ghost predicate Valid()
      reads this, buffer
    {
      && (buffer == null ==> lo == hi == 0)
      && (buffer != null ==> lo < hi <= buffer.Length)
      && (forall i :: 0 <= i < |pool| ==> pool[i].buffer != buffer && pool[i].start <= pool[i].buffer.Length)
      && (forall i, j :: 0 <= i < j < |pool| ==> pool[i].buffer != pool[j].buffer)
    }

    ghost function Contents(): seq<T>
      requires Valid()
      reads this, buffer
    {
      if buffer == null then [] else buffer[lo..hi]
    }

    constructor (zero: T)
      ensures Valid() && Contents() == []
    {
      this.zero := zero;
      buffer, lo, hi, pool := null, 0, 0, [];
    }

    /** An empty slice to append to: from the pool, if it still has one, or new. */
    method AllocateSlice(fromPool: bool) returns (s: FreeSlice<T>)
      requires Valid() && buffer == null
      modifies this`pool
      ensures Valid() && s.start <= s.buffer.Length && (forall i :: 0 <= i < |pool| ==> pool[i].buffer != s.buffer)
      ensures fresh(s.buffer) || s in old(pool)
    {
      if fromPool && |pool| > 0 {
        s := pool[0];
        pool := pool[1..];
      } else {
        var made := new T[16](_ => zero);
        s := FreeSlice(made, 0);
      }
    }

    /** append: in place while there is room behind the slice, otherwise into a larger array. */
    method Append(elem: T)
      requires buffer != null && lo <= hi <= buffer.Length
      requires forall i :: 0 <= i < |pool| ==> pool[i].buffer != buffer && pool[i].start <= pool[i].buffer.Length
      requires forall i, j :: 0 <= i < j < |pool| ==> pool[i].buffer != pool[j].buffer
      modifies this`buffer, this`lo, this`hi, buffer
      ensures Valid() && buffer != null && Contents() == old(buffer[lo..hi]) + [elem]
    {
      if hi < buffer.Length {
        buffer[hi] := elem;
        hi := hi + 1;
      } else {
        var n := hi - lo;
        var live := buffer[lo..hi];
        var larger := new T[2 * n + 1](i => if 0 <= i < n then live[i] else zero);
        larger[n] := elem;
        assert larger[0..n] == live;
        buffer, lo, hi := larger, 0, n + 1;
      }
    }

    /** Push; whether to signal on C afterwards is decided under the lock. */
    method Push(elem: T, fromPool: bool) returns (signal: bool)
      requires Valid()
      modifies this, buffer, set s | s in pool :: s.buffer
      ensures Valid() && Contents() == old(Contents()) + [elem] && signal == (old(Contents()) == [])
    {
      signal := buffer == null;
      if signal {
        var s := AllocateSlice(fromPool);
        buffer, lo, hi := s.buffer, s.start, s.start;
      }
      Append(elem);
    }

    /** Pop; it signals on C if the queue is not empty afterwards. The emptied slice goes to the pool. */
    method Pop() returns (r: Option<T>, signal: bool)
      requires Valid()
      modifies this, buffer
      ensures Valid()
      ensures old(Contents()) == [] ==> r == None && !signal && Contents() == []
      ensures old(Contents()) != [] ==>
        r == Some(old(Contents())[0]) && Contents() == old(Contents())[1..] && signal == (Contents() != [])
    {
      if buffer == null { return None, false; }
      r := Some(buffer[lo]);
      buffer[lo] := zero;
      lo := lo + 1;
      signal := lo != hi;
      if !signal {
        pool := pool + [FreeSlice(buffer, lo)];
        buffer, lo, hi := null, 0, 0;
      }
    }
  }

  // ---------------------------------------------------------------- pushers and consumers

  /**
   The queue among concurrent goroutines. `token` says that C holds a signal; `signalling` are the
   pushers that have unlocked and are about to signal, `awake` the consumers that have received
   from C and have not popped since. `pushed` and `popped` record history.
   */
  datatype Shared = Shared(
    elems: seq<int>, token: bool, signalling: multiset<nat>, awake: multiset<nat>, pushed: seq<int>, popped: seq<int>)

  datatype Act =
    | PushLocked(who: nat, elem: int)
    | Signal(who: nat)
    | Receive(who: nat)
    | PopLocked(who: nat)

  const IDLE := Shared([], false, multiset{}, multiset{}, [], [])

  predicate Enabled(q: Shared, a: Act) {
    match a
    case PushLocked(_, _) => true
    case Signal(who) => who in q.signalling
    case Receive(_) => q.token
    case PopLocked(_) => true
  }

  function Do(q: Shared, a: Act): Shared
    requires Enabled(q, a)
  {
    match a
    case PushLocked(who, elem) =>
      q.(elems := q.elems + [elem], pushed := q.pushed + [elem],
         signalling := if q.elems == [] then q.signalling + multiset{who} else q.signalling)
    case Signal(who) => q.(token := true, signalling := q.signalling - multiset{who})
    case Receive(who) => q.(token := false, awake := q.awake + multiset{who})
    case PopLocked(who) =>
      var q' := q.(awake := q.awake - multiset{who});
      if q.elems == [] then q'
      else q'.(elems := q.elems[1..], popped := q.popped + [q.elems[0]], token := q.token || |q.elems| > 1)
  }

  /** Somebody will come for the elements, and they come out in the order they went in. */
  predicate SharedInv(q: Shared) {
    && (q.elems != [] ==> q.token || q.signalling != multiset{} || q.awake != multiset{})
    && q.pushed == q.popped + q.elems
  }

  lemma DoKeeps(q: Shared, a: Act)
    requires SharedInv(q) && Enabled(q, a)
    ensures SharedInv(Do(q, a))
  {
    match a
    case PushLocked(who, elem) => assert q.elems == [] ==> who in Do(q, a).signalling;
    case Receive(who) => assert who in Do(q, a).awake;
    case PopLocked(_) => assert q.elems != [] ==> q.elems == [q.elems[0]] + q.elems[1..];
    case Signal(_) =>
  }

  datatype Trace = NoActs | Then(before: Trace, act: Act, queue: Shared)

  function Last(t: Trace): Shared {
    if t.NoActs? then IDLE else t.queue
  }

  predicate IsTrace(t: Trace) {
    t.Then? ==> IsTrace(t.before) && Enabled(Last(t.before), t.act) && t.queue == Do(Last(t.before), t.act)
  }

  /** In every interleaving a non-empty queue has a signal in C, one about to be sent, or a consumer at work. */
  lemma {:induction false} NoLostWakeup(t: Trace)
    requires IsTrace(t)
    ensures SharedInv(Last(t))
    decreases t
  {
    if t.Then? {
      NoLostWakeup(t.before);
      DoKeeps(Last(t.before), t.act);
    }
  }
}
