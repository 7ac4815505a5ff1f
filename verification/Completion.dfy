/** One dispatch's completion cell: completed by whoever decides the command, polled by the
    dispatch future. What every call answers is stated over the calls made before it. */
module Completion {
  import opened Common
  import R = Runtime

  /** A call on the cell, in the order its lock admits them. */
  datatype Call<C, W> = Completing(result: R.Outcome<C>) | Polling(waker: W)

  datatype CompletionState<C, W> =
    | Awaiting(waker: Option<W>)
    | Ready(result: R.Outcome<C>)
    | Consumed

  ghost function FirstResult<C, W>(calls: seq<Call<C, W>>): Option<R.Outcome<C>> {
    if calls == [] then None
    else
      var last := calls[|calls| - 1];
      var before: Option<R.Outcome<C>> := FirstResult(calls[..|calls| - 1]);
      if before.None? && last.Completing? then Some(last.result) else before
  }

  ghost function LatestWaker<C, W>(calls: seq<Call<C, W>>): Option<W> {
    if calls == [] then None
    else if calls[|calls| - 1].Polling? then Some(calls[|calls| - 1].waker)
    else LatestWaker(calls[..|calls| - 1])
  }

  /** Some poll came after a completion. */
  ghost predicate Taken<C, W>(calls: seq<Call<C, W>>) {
    calls != []
    && (Taken(calls[..|calls| - 1])
        || (calls[|calls| - 1].Polling? && FirstResult(calls[..|calls| - 1]).Some?))
  }

  lemma AfterCall<C, W>(calls: seq<Call<C, W>>, call: Call<C, W>)
    ensures FirstResult(calls + [call])
         == if FirstResult(calls).None? && call.Completing? then Some(call.result) else FirstResult(calls)
    ensures LatestWaker(calls + [call]) == if call.Polling? then Some(call.waker) else LatestWaker(calls)
    ensures Taken(calls + [call]) <==> Taken(calls) || (call.Polling? && FirstResult(calls).Some?)
  {
    assert (calls + [call])[..|calls|] == calls;
  }

  lemma {:induction false} TakenHasResult<C, W>(calls: seq<Call<C, W>>)
    requires Taken(calls)
    ensures FirstResult(calls).Some?
  {
    if Taken(calls[..|calls| - 1]) {
      TakenHasResult(calls[..|calls| - 1]);
    }
  }

  class Completion<C, W> {
    var state: CompletionState<C, W>
    ghost var calls: seq<Call<C, W>>

    ghost predicate Valid()
      reads this
    {
      match FirstResult(calls)
      case None => state == Awaiting(LatestWaker(calls))
      case Some(result) => state == if Taken(calls) then Consumed else Ready(result)
    }

    constructor ()
      ensures Valid() && calls == []
    {
      state := Awaiting(None);
      calls := [];
    }

    /** The first completion is kept and wakes the latest registered waker; any later one is dropped. */
    method Complete(result: R.Outcome<C>) returns (woken: Option<W>)
      requires Valid()
      modifies this
      ensures Valid() && calls == old(calls) + [Completing(result)]
      ensures woken == if FirstResult(old(calls)).None? then LatestWaker(old(calls)) else None
    {
      if Taken(calls) {
        TakenHasResult(calls);
      }
      AfterCall(calls, Completing(result));
      calls := calls + [Completing(result)];
      match state {
        case Awaiting(waker) =>
          state := Ready(result);
          woken := waker;
        case Ready(_) => woken := None;
        case Consumed => woken := None;
      }
    }

    /** Take the result once it is there, or leave a waker while it is not. */
    method PollTake(waker: W) returns (taken: Option<R.Outcome<C>>)
      requires Valid()
      modifies this
      ensures Valid() && calls == old(calls) + [Polling(waker)]
      ensures taken == if Taken(old(calls)) then None else FirstResult(old(calls))
    {
      AfterCall(calls, Polling(waker));
      calls := calls + [Polling(waker)];
      match state {
        case Ready(result) =>
          state := Consumed;
          taken := Some(result);
        case Awaiting(_) =>
          state := Awaiting(Some(waker));
          taken := None;
        case Consumed => taken := None;
      }
    }

    method IsConsumed() returns (consumed: bool)
      requires Valid()
      ensures consumed <==> Taken(calls)
    {
      if Taken(calls) {
        TakenHasResult(calls);
      }
      consumed := state.Consumed?;
    }
  }

  // ----- what that means for every history of calls -----

  /** Poll `i` is answered with the result. */
  ghost predicate Yields<C, W>(calls: seq<Call<C, W>>, i: nat) {
    i < |calls| && calls[i].Polling? && FirstResult(calls[..i]).Some? && !Taken(calls[..i])
  }

  /** Completion `i` is the one that counts. */
  ghost predicate Settles<C, W>(calls: seq<Call<C, W>>, i: nat) {
    i < |calls| && calls[i].Completing? && FirstResult(calls[..i]).None?
  }

  lemma {:induction false} ResultStays<C, W>(calls: seq<Call<C, W>>, i: nat)
    requires i <= |calls|
    ensures FirstResult(calls[..i]).Some? ==> FirstResult(calls) == FirstResult(calls[..i])
    ensures Taken(calls[..i]) ==> Taken(calls)
  {
    var n := |calls|;
    if i < n {
      ResultStays(calls[..n - 1], i);
      assert calls[..n - 1][..i] == calls[..i];
    } else {
      assert calls[..i] == calls;
    }
  }

  lemma CallsMatterLater<C, W>(calls: seq<Call<C, W>>, a: nat, b: nat)
    requires a < b <= |calls|
    ensures calls[a].Completing? ==> FirstResult(calls[..b]).Some?
    ensures FirstResult(calls[..a]).Some? ==> FirstResult(calls[..b]).Some?
    ensures Settles(calls, a) ==> FirstResult(calls[..b]) == Some(calls[a].result)
    ensures Yields(calls, a) ==> Taken(calls[..b])
  {
    AfterCall(calls[..a], calls[a]);
    assert calls[..a] + [calls[a]] == calls[..a + 1] == calls[..b][..a + 1];
    ResultStays(calls[..b], a + 1);
  }

  /** At most one completion counts and at most one poll is answered, with that completion's
      result; a poll that comes after a completion is that poll or comes after it. */
  lemma CompletedAndTakenOnce<C, W>(calls: seq<Call<C, W>>, i: nat, j: nat)
    requires i < |calls| && j < |calls|
    ensures Settles(calls, i) && Settles(calls, j) ==> i == j
    ensures Yields(calls, i) && Yields(calls, j) ==> i == j
    ensures Settles(calls, i) && Yields(calls, j) ==> i < j && FirstResult(calls[..j]) == Some(calls[i].result)
    ensures calls[i].Completing? && calls[j].Polling? && i < j ==> Yields(calls, j) || Taken(calls[..j])
  {
    if i < j {
      CallsMatterLater(calls, i, j);
    } else if j < i {
      CallsMatterLater(calls, j, i);
    }
  }

  /** No wake-up is lost: the waker left by any poll before the deciding completion is woken by
      it, unless a later poll replaced it. */
  lemma {:induction false} LatestPollIsWoken<C, W>(calls: seq<Call<C, W>>, p: nat, i: nat)
    requires p < i <= |calls| && calls[p].Polling? && forall q :: p < q < i ==> !calls[q].Polling?
    ensures LatestWaker(calls[..i]) == Some(calls[p].waker)
  {
    AfterCall(calls[..i - 1], calls[i - 1]);
    assert calls[..i - 1] + [calls[i - 1]] == calls[..i];
    if p < i - 1 {
      LatestPollIsWoken(calls, p, i - 1);
    }
  }

  /** The cell of the runtime model a history amounts to. */
  ghost function CellOf<C, W>(calls: seq<Call<C, W>>): R.Cell<C> {
    match FirstResult(calls)
    case None => R.Cell.Awaiting
    case Some(result) => if Taken(calls) then R.Cell.Consumed(result) else R.Cell.Ready(result)
  }

  /** Calls change the cell just as the runtime model says. */
  lemma CallsAreCellSteps<C, W>(calls: seq<Call<C, W>>, result: R.Outcome<C>, waker: W)
    ensures CellOf(calls + [Completing(result)]) == R.Completed(CellOf(calls), result)
    ensures CellOf(calls + [Polling(waker)])
         == if CellOf(calls).Ready? then R.Cell.Consumed(CellOf(calls).result) else CellOf(calls)
  {
    if Taken(calls) {
      TakenHasResult(calls);
    }
    AfterCall(calls, Completing(result));
    AfterCall(calls, Polling(waker));
  }
}
