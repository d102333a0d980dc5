/** The activity manager: it fans each scheduler activity out to its
    registered listeners and drops the ones that can no longer receive.
    Which listeners are closed when a message goes out is a parameter. */
module Activity {
  import opened Wrappers
  import opened Autoscale
  import opened Schedule

  /** A registered listener channel, told apart by its number. */
  datatype Listener = Listener(number: nat)

  /** Sending to a listener as intended: sending to a closed one fails. */
  function Send(msg: SchedulerActivity, l: Listener, closed: set<Listener>): (err: Option<Error>)
    ensures err.Some? <==> l in closed
  {
    if l in closed then Some(Failed("send to closed listener")) else None
  }

  /** Sending as written: the recovered panic is stored in a local after
      the unnamed result has already been fixed, so the result is always
      nil. It agrees with the intended send exactly on the open listeners. */
  function SendAsWritten(msg: SchedulerActivity, l: Listener, closed: set<Listener>): (err: Option<Error>)
    ensures err == Send(msg, l, closed) <==> l !in closed
  {
    None
  }

  /** The listeners kept after one message: those the send succeeded on, in order. */
  function Kept(msg: SchedulerActivity, ls: seq<Listener>, closed: set<Listener>): seq<Listener>
  {
    if |ls| == 0 then []
    else
      var rest := Kept(msg, ls[..|ls| - 1], closed);
      if Send(msg, ls[|ls| - 1], closed).None? then rest + [ls[|ls| - 1]] else rest
  }

  /** The same, with the send as written. */
  function KeptAsWritten(msg: SchedulerActivity, ls: seq<Listener>, closed: set<Listener>): seq<Listener>
  {
    if |ls| == 0 then []
    else
      var rest := KeptAsWritten(msg, ls[..|ls| - 1], closed);
      if SendAsWritten(msg, ls[|ls| - 1], closed).None? then rest + [ls[|ls| - 1]] else rest
  }

  lemma KeptSnoc(msg: SchedulerActivity, ls: seq<Listener>, l: Listener, closed: set<Listener>)
    ensures Kept(msg, ls + [l], closed) == if l in closed then Kept(msg, ls, closed) else Kept(msg, ls, closed) + [l]
  {
    assert (ls + [l])[..|ls|] == ls;
  }

  /** The kept listeners are exactly the registered ones that are open,
      none is kept twice that was registered once, and there are no more
      of them than before. */
  lemma {:induction false} KeptSpec(msg: SchedulerActivity, ls: seq<Listener>, closed: set<Listener>)
    ensures forall l :: l in Kept(msg, ls, closed) <==> l in ls && l !in closed
    ensures NoDuplicates(ls) ==> NoDuplicates(Kept(msg, ls, closed))
    ensures |Kept(msg, ls, closed)| <= |ls|
  {
    if |ls| > 0 {
      var init, last := ls[..|ls| - 1], ls[|ls| - 1];
      assert ls == init + [last];
      KeptSpec(msg, init, closed);
      KeptSnoc(msg, init, last, closed);
      if NoDuplicates(ls) {
        assert NoDuplicates(init) by {
          forall i, j | 0 <= i < j < |init| ensures init[i] != init[j] {
            assert init[i] == ls[i] && init[j] == ls[j];
          }
        }
        assert forall i :: 0 <= i < |init| ==> init[i] == ls[i] != ls[|ls| - 1];
      }
    }
  }

  /** Pruning twice against the same closed listeners prunes nothing more. */
  lemma {:induction false} KeptIdempotent(msg: SchedulerActivity, ls: seq<Listener>, closed: set<Listener>)
    ensures Kept(msg, Kept(msg, ls, closed), closed) == Kept(msg, ls, closed)
  {
    if |ls| > 0 {
      var init, last := ls[..|ls| - 1], ls[|ls| - 1];
      assert ls == init + [last];
      KeptIdempotent(msg, init, closed);
      KeptSnoc(msg, init, last, closed);
      if last !in closed {
        KeptSnoc(msg, Kept(msg, init, closed), last, closed);
      }
    }
  }

  /** As written, no listener is ever dropped. */
  lemma {:induction false} KeptAsWrittenKeepsAll(msg: SchedulerActivity, ls: seq<Listener>, closed: set<Listener>)
    ensures KeptAsWritten(msg, ls, closed) == ls
  {
    if |ls| > 0 {
      KeptAsWrittenKeepsAll(msg, ls[..|ls| - 1], closed);
      assert ls[..|ls| - 1] + [ls[|ls| - 1]] == ls;
    }
  }

  /** A closed listener stays registered as written, and is dropped as intended. */
  lemma ClosedListenerExample(msg: SchedulerActivity)
    ensures KeptAsWritten(msg, [Listener(0)], {Listener(0)}) == [Listener(0)]
    ensures Kept(msg, [Listener(0)], {Listener(0)}) == []
  {
    KeptAsWrittenKeepsAll(msg, [Listener(0)], {Listener(0)});
  }

  class ActivityManager {
    var listeners: seq<Listener>

    constructor ()
      ensures listeners == []
    {
      listeners := [];
    }

    method RegisterListener(l: Listener)
      modifies this
      ensures listeners == old(listeners) + [l]
    {
      listeners := listeners + [l];
    }

    /** What the fan-out does with one message: send it to every listener
        in turn and keep the ones the send succeeded on. */
    method Broadcast(msg: SchedulerActivity, closed: set<Listener>) returns (delivered: seq<Listener>)
      modifies this
      ensures delivered == Kept(msg, old(listeners), closed)
      ensures listeners == delivered
    {
      var newListeners: seq<Listener> := [];
      var i := 0;
      while i < |listeners|
        invariant listeners == old(listeners)
        invariant 0 <= i <= |listeners|
        invariant newListeners == Kept(msg, listeners[..i], closed)
      {
        KeptSnoc(msg, listeners[..i], listeners[i], closed);
        assert listeners[..i + 1] == listeners[..i] + [listeners[i]];
        if Send(msg, listeners[i], closed).None? {
          newListeners := newListeners + [listeners[i]];
        }
        i := i + 1;
      }
      assert listeners[..i] == listeners;
      listeners := newListeners;
      delivered := newListeners;
    }
  }
}
