/** The discipline both device versions keep on each of their two request queues
    (js/BluetoothDevice.js:365-424, BluetoothDevice.js:131-150): a request goes to
    the driver when it reaches the head of its queue, so at most one is in flight,
    and completions take requests off in the order they were submitted. */
module RequestQueue {
  import opened Wrappers

  /** Submitting `r` to queue `q`: the driver is called with `r` exactly when the
      queue was empty; `r` is appended unless that call was refused (`accepted`
      false), because the source pushes only after the driver call returned. */
  function Enqueue<R>(q: seq<R>, r: R, accepted: bool): (seq<R>, Option<R>)
  {
    if |q| == 0 then (if accepted then [r] else [], Some(r)) else (q + [r], None)
  }

  /** A completion event: the head leaves, and the request behind it, if any, is
      dispatched. */
  function Advance<R>(q: seq<R>): (seq<R>, Option<R>)
    requires |q| > 0
  {
    (q[1..], if |q| > 1 then Some(q[1]) else None)
  }

  function AsSeq<R>(o: Option<R>): seq<R>
  {
    if o.Some? then [o.value] else []
  }

  /** What can happen to one queue: a submission, or a completion event. */
  datatype Op<R> = Submit(r: R) | Complete

  function Submitted<R>(ops: seq<Op<R>>): seq<R>
  {
    if ops == [] then []
    else Submitted(ops[..|ops| - 1]) + (if ops[|ops| - 1].Submit? then [ops[|ops| - 1].r] else [])
  }

  function Completions<R>(ops: seq<Op<R>>): nat
  {
    if ops == [] then 0
    else Completions(ops[..|ops| - 1]) + (if ops[|ops| - 1].Complete? then 1 else 0)
  }

  /** The driver reports a completion only while one of its requests is in flight. */
  ghost predicate Orderly<R>(ops: seq<Op<R>>)
  {
    forall k :: 0 <= k < |ops| && ops[k].Complete? ==>
      Completions(ops[..k]) < |Submitted(ops[..k])|
  }

  /** The queue after `ops` from an empty one, and every request handed to the
      driver, in order, when the driver accepts every call. */
  function Run<R>(ops: seq<Op<R>>): (seq<R>, seq<R>)
  {
    if ops == [] then ([], [])
    else
      var (q, sent) := Run(ops[..|ops| - 1]);
      match ops[|ops| - 1]
      case Submit(r) =>
        var (q', d) := Enqueue(q, r, true);
        (q', sent + AsSeq(d))
      case Complete =>
        if |q| == 0 then (q, sent)
        else
          var (q', d) := Advance(q);
          (q', sent + AsSeq(d))
  }

  /** FIFO and one in flight: after any orderly history with c completions of the
      submitted requests s, the queue holds s[c..] and the driver has been handed
      exactly s[..c+1] (or all of s): the n-th dispatched request is the n-th
      submitted one, and at most one dispatched request awaits its completion. */
  lemma {:induction false} Fifo<R>(ops: seq<Op<R>>)
    requires Orderly(ops)
    ensures Completions(ops) <= |Submitted(ops)|
    ensures Run(ops).0 == Submitted(ops)[Completions(ops)..]
    ensures Run(ops).1 == Submitted(ops)[..Min(Completions(ops) + 1, |Submitted(ops)|)]
  {
    if ops != [] {
      var init := ops[..|ops| - 1];
      OrderlyInit(ops);
      Fifo(init);
      match ops[|ops| - 1]
      case Submit(r) => FifoSubmit(ops, r);
      case Complete => FifoComplete(ops);
    }
  }

  /** Every history before an orderly one is orderly. */
  lemma OrderlyInit<R>(ops: seq<Op<R>>)
    requires Orderly(ops) && ops != []
    ensures Orderly(ops[..|ops| - 1])
  {
    var init := ops[..|ops| - 1];
    forall k | 0 <= k < |init| && init[k].Complete?
      ensures Completions(init[..k]) < |Submitted(init[..k])|
    {
      assert init[..k] == ops[..k];
    }
  }

  /** The step of `Fifo` for a submission. */
  lemma FifoSubmit<R>(ops: seq<Op<R>>, r: R)
    requires ops != [] && ops[|ops| - 1] == Submit(r)
    requires var init := ops[..|ops| - 1];
      && Completions(init) <= |Submitted(init)|
      && Run(init).0 == Submitted(init)[Completions(init)..]
      && Run(init).1 == Submitted(init)[..Min(Completions(init) + 1, |Submitted(init)|)]
    ensures Completions(ops) <= |Submitted(ops)|
    ensures Run(ops).0 == Submitted(ops)[Completions(ops)..]
    ensures Run(ops).1 == Submitted(ops)[..Min(Completions(ops) + 1, |Submitted(ops)|)]
  {
    var init := ops[..|ops| - 1];
    var s, c := Submitted(init), Completions(init);
    var q, sent := Run(init).0, Run(init).1;
    assert Submitted(ops) == s + [r] && Completions(ops) == c;
    if |q| == 0 {
      assert c == |s|;
      assert Run(ops) == ([r], sent + [r]);
      assert (s + [r])[c..] == [r];
      assert sent == s && (s + [r])[..c + 1] == s + [r];
    } else {
      assert sent + AsSeq<R>(None) == sent;
      assert Run(ops) == (q + [r], sent);
      assert (s + [r])[c..] == s[c..] + [r];
      assert (s + [r])[..c + 1] == s[..c + 1];
    }
  }

  /** The step of `Fifo` for a completion, which an orderly history reports
      only with a request in flight. */
  lemma FifoComplete<R>(ops: seq<Op<R>>)
    requires Orderly(ops) && ops != [] && ops[|ops| - 1] == Complete
    requires var init := ops[..|ops| - 1];
      && Completions(init) <= |Submitted(init)|
      && Run(init).0 == Submitted(init)[Completions(init)..]
      && Run(init).1 == Submitted(init)[..Min(Completions(init) + 1, |Submitted(init)|)]
    ensures Completions(ops) <= |Submitted(ops)|
    ensures Run(ops).0 == Submitted(ops)[Completions(ops)..]
    ensures Run(ops).1 == Submitted(ops)[..Min(Completions(ops) + 1, |Submitted(ops)|)]
  {
    var init := ops[..|ops| - 1];
    var s, c := Submitted(init), Completions(init);
    var q, sent := Run(init).0, Run(init).1;
    assert Submitted(ops) == s && Completions(ops) == c + 1;
    assert c < |s| by {
      assert ops[..|ops| - 1] == init;
    }
    assert sent == s[..c + 1] && q == s[c..];
    assert Run(ops) == (q[1..], sent + AsSeq(Advance(q).1));
    if c + 1 < |s| {
      assert Run(ops) == (q[1..], sent + [q[1]]);
      assert s[..c + 1] + [s[c + 1]] == s[..c + 2];
    } else {
      assert sent + AsSeq<R>(None) == sent;
      assert Run(ops) == (q[1..], sent);
    }
  }

  /** The two consequences stated on their own: what the driver was handed is a
      prefix of what was submitted, and it runs at most one ahead of the completions,
      exactly one while the queue is not empty. */
  lemma OneInFlight<R>(ops: seq<Op<R>>)
    requires Orderly(ops)
    ensures Run(ops).1 <= Submitted(ops)
    ensures |Run(ops).1| - Completions(ops) == (if |Run(ops).0| > 0 then 1 else 0)
  {
    Fifo(ops);
    var s, c := Submitted(ops), Completions(ops);
    var m := Min(c + 1, |s|);
    assert Run(ops).1 == s[..m] && |Run(ops).0| == |s| - c;
    assert m == (if |s| - c > 0 then c + 1 else c);
  }
}
