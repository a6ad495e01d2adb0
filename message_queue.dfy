/**
 * The pending-message queue of ModLockscreen's UnlockHandler (an android.os.Handler).
 * Messages are kept in the order they were sent; sending never cancels an
 * earlier message of the same kind.
 */
module MessageQueue {

  /** The two message codes the handler understands: MSG_SMART_UNLOCK (1) and MSG_DIRECT_UNLOCK (2). */
  datatype Kind = MsgSmartUnlock | MsgDirectUnlock

  /** An empty message of kind `what` posted with `delay` milliseconds of delay. */
  datatype Message = Message(what: Kind, delay: nat)

  /** hasMessages: some pending message is of kind `k`. */
  predicate Has(q: seq<Message>, k: Kind)
  {
    exists i :: 0 <= i < |q| && q[i].what == k
  }

  /** Number of pending messages of kind `k`. */
  function CountOf(q: seq<Message>, k: Kind): nat
  {
    if q == [] then 0 else (if q[0].what == k then 1 else 0) + CountOf(q[1..], k)
  }

  /** The queue after removeMessages(k): every message of kind `k` dropped, the rest in order. */
  function Without(q: seq<Message>, k: Kind): seq<Message>
  {
    if q == [] then []
    else if q[0].what == k then Without(q[1..], k)
    else [q[0]] + Without(q[1..], k)
  }

  /** The queue after the message at `i` has been taken out for delivery. */
  function RemoveAt(q: seq<Message>, i: nat): (r: seq<Message>)
    requires i < |q|
    ensures |r| == |q| - 1
    ensures multiset(r) + multiset{q[i]} == multiset(q)
  {
    assert q == q[..i] + [q[i]] + q[i + 1..];
    q[..i] + q[i + 1..]
  }

  /** After removeMessages(k) nothing of kind `k` is left, and nothing new was added. */
  lemma WithoutRemovesAll(q: seq<Message>, k: Kind)
    ensures !Has(Without(q, k), k)
    ensures multiset(Without(q, k)) <= multiset(q)
    ensures CountOf(Without(q, k), k) == 0
  {
    WithoutCounts(q, k);
    CountPositive(Without(q, k), k);
  }

  lemma {:induction false} WithoutCounts(q: seq<Message>, k: Kind)
    ensures CountOf(Without(q, k), k) == 0
    ensures multiset(Without(q, k)) <= multiset(q)
  {
    if q != [] {
      WithoutCounts(q[1..], k);
      assert q == [q[0]] + q[1..];
      if q[0].what != k {
        assert ([q[0]] + Without(q[1..], k))[1..] == Without(q[1..], k);
      }
    }
  }

  /** removeMessages(k) leaves the messages of every other kind alone. */
  lemma {:induction false} WithoutKeepsOthers(q: seq<Message>, k: Kind, other: Kind)
    requires other != k
    ensures CountOf(Without(q, k), other) == CountOf(q, other)
  {
    if q != [] {
      WithoutKeepsOthers(q[1..], k, other);
      if q[0].what != k {
        assert ([q[0]] + Without(q[1..], k))[1..] == Without(q[1..], k);
      }
    }
  }

  /** removeMessages(k) with nothing of kind `k` pending is a no-op. */
  lemma {:induction false} WithoutAbsent(q: seq<Message>, k: Kind)
    requires !Has(q, k)
    ensures Without(q, k) == q
  {
    if q != [] {
      assert !Has(q[1..], k) by {
        forall i | 0 <= i < |q[1..]| ensures q[1..][i].what != k {
          assert q[1..][i] == q[i + 1];
        }
      }
      WithoutAbsent(q[1..], k);
      assert q == [q[0]] + q[1..];
    }
  }

  /** A kind is pending exactly when its count is positive. */
  lemma {:induction false} CountPositive(q: seq<Message>, k: Kind)
    ensures CountOf(q, k) > 0 <==> Has(q, k)
  {
    if q != [] {
      CountPositive(q[1..], k);
      if Has(q[1..], k) {
        var i :| 0 <= i < |q[1..]| && q[1..][i].what == k;
        assert q[i + 1].what == k;
      }
      if Has(q, k) && q[0].what != k {
        var i :| 0 <= i < |q| && q[i].what == k;
        assert q[1..][i - 1].what == k;
      }
    }
  }

  /** Posting one message adds one to the count of its kind only. */
  lemma {:induction false} CountAppend(q: seq<Message>, m: Message, k: Kind)
    ensures CountOf(q + [m], k) == CountOf(q, k) + (if m.what == k then 1 else 0)
  {
    if q != [] {
      assert (q + [m])[1..] == q[1..] + [m];
      CountAppend(q[1..], m, k);
    } else {
      assert [m][1..] == [];
    }
  }

  /** Counting distributes over concatenation. */
  lemma {:induction false} CountConcat(a: seq<Message>, b: seq<Message>, k: Kind)
    ensures CountOf(a + b, k) == CountOf(a, k) + CountOf(b, k)
  {
    if a != [] {
      assert (a + b)[1..] == a[1..] + b;
      CountConcat(a[1..], b, k);
    } else {
      assert a + b == b;
    }
  }

  /** Taking one message out for delivery lowers the count of its kind by one. */
  lemma CountRemoveAt(q: seq<Message>, i: nat, k: Kind)
    requires i < |q|
    ensures CountOf(RemoveAt(q, i), k) == CountOf(q, k) - (if q[i].what == k then 1 else 0)
  {
    assert q == q[..i] + ([q[i]] + q[i + 1..]);
    CountConcat(q[..i], [q[i]] + q[i + 1..], k);
    CountConcat(q[..i], q[i + 1..], k);
    assert ([q[i]] + q[i + 1..])[1..] == q[i + 1..];
  }

  /**
   * UnlockHandler's message queue. Which pending message is delivered next is
   * decided by the looper's clock, so delivery takes the index of the message
   * that falls due.
   */
  class Handler {
    var pending: seq<Message>

    /** new UnlockHandler(): nothing pending. */
    constructor ()
      ensures pending == []
    {
      pending := [];
    }

    /** sendEmptyMessageDelayed: appends, without cancelling earlier messages of the kind. */
    method SendEmptyMessageDelayed(what: Kind, delay: nat)
      modifies this
      ensures pending == old(pending) + [Message(what, delay)]
    {
      pending := pending + [Message(what, delay)];
    }

    /** sendEmptyMessage: the same with delay 0. */
    method SendEmptyMessage(what: Kind)
      modifies this
      ensures pending == old(pending) + [Message(what, 0)]
    {
      SendEmptyMessageDelayed(what, 0);
    }

    /** removeMessages: drops every pending message of kind `what`. */
    method RemoveMessages(what: Kind)
      modifies this
      ensures pending == Without(old(pending), what)
    {
      pending := Without(pending, what);
    }

    /** hasMessages: scans the queue for a message of kind `what`. */
    method HasMessages(what: Kind) returns (found: bool)
      ensures found <==> exists i :: 0 <= i < |pending| && pending[i].what == what
    {
      var i := 0;
      while i < |pending|
        invariant 0 <= i <= |pending|
        invariant forall j :: 0 <= j < i ==> pending[j].what != what
      {
        if pending[i].what == what {
          return true;
        }
        i := i + 1;
      }
      return false;
    }

    /** The looper takes the message at `i`, which has fallen due, out of the queue. */
    method TakeDue(i: nat) returns (m: Message)
      requires i < |pending|
      modifies this
      ensures m == old(pending)[i]
      ensures pending == RemoveAt(old(pending), i)
    {
      m := pending[i];
      pending := RemoveAt(pending, i);
    }
  }
}
