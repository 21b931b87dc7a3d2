/** `waitAction` of driver/controller.go, and what its success proves. */
module Waiting {
  import opened Wrappers
  import opened CloudState
  import opened CloudApi

  /** The volume is attached, detached or resized at some instant from index
      `from` of the history on. */
  ghost predicate Sometime(history: seq<State>, from: int, v: Id, kind: Kind) {
    exists k :: 0 <= from <= k < |history| && Done(history[k], v, kind)
  }

  /** One poll: not answered, in which case the context may have ended by then, or
      answered with the status of the action. */
  datatype Poll = Unanswered(cancelled: bool) | Answered(status: Status)

  predicate KeepsWaiting(p: Poll) {
    p == Unanswered(false) || (p.Answered? && !p.status.Completed?)
  }

  /** Whether waiting for action a succeeds, and the world it leaves. */
  ghost function WaitOutcome(w: World, ctx: seq<bool>, a: nat): (bool, World)
    decreases |ctx|
  {
    if ctx == [] then (false, w)
    else
      var (reply, at) := ReadAction(w, a);
      match reply
      case Failed(_) => if ctx[0] then (false, at) else WaitOutcome(at, ctx[1..], a)
      case Got(status) => if status.Completed? then (true, at) else WaitOutcome(at, ctx[1..], a)
  }

  /** With nobody else at work waiting changes nothing, and succeeds if and only if the
      action has completed and the context leaves room for a poll. */
  lemma {:induction false} CalmWait(w: World, ctx: seq<bool>, a: nat)
    requires Calm(w.left) && a < |w.s.actions|
    ensures var (done, after) := WaitOutcome(w, ctx, a);
            && after.s == w.s && after.asked == w.asked && Calm(after.left) && (w.left == [] ==> after.left == [])
            && (done <==> ctx != [] && w.s.actions[a].status.Completed?)
    decreases |ctx|
  {
    if ctx != [] {
      CalmMeets(w.s, w.left);
      CalmWait(Arrive(w), ctx[1..], a);
    }
  }

  /** `waitAction`. The context is given by the polls it leaves room for, each with
      whether it has ended when the answer arrives. */
  method WaitAction(cloud: Cloud, a: nat, ctx: seq<bool>) returns (done: bool)
    requires cloud.Valid() && a < |cloud.s.actions|
    modifies cloud`s, cloud`history, cloud`log, cloud`schedule
    ensures cloud.Valid() && Moved(cloud.policy, old(cloud.history), cloud.history)
    ensures (done, cloud.Now()) == WaitOutcome(old(cloud.Now()), ctx, a)
    ensures done ==> a < |cloud.s.actions| && cloud.s.actions[a].status.Completed?
  {
    ghost var w := cloud.Now();
    for k := 0 to |ctx|
      invariant cloud.Valid() && Moved(cloud.policy, old(cloud.history), cloud.history)
      invariant a < |cloud.s.actions|
      invariant WaitOutcome(cloud.Now(), ctx[k..], a) == WaitOutcome(w, ctx, a)
    {
      ghost var before := cloud.history;
      assert ctx[k..][1..] == ctx[k + 1..];
      var r := cloud.GetAction(a);
      MovedTransitive(cloud.policy, old(cloud.history), before, cloud.history);
      match r
      case Failed(_) =>
        if ctx[k] {
          return false;
        }
      case Got(status) =>
        if status.Completed? {
          return true;
        }
    }
    done := false;
  }

  // ---- When waiting ends ---------------------------------------------------

  /** The world after n polls. */
  ghost function WorldAfter(w: World, n: nat): World {
    if n == 0 then w else Arrive(WorldAfter(w, n - 1))
  }

  lemma {:induction false} OnePollLess(w: World, n: nat)
    ensures WorldAfter(Arrive(w), n) == WorldAfter(w, n + 1)
  {
    if 0 < n {
      OnePollLess(w, n - 1);
    }
  }

  /** Poll number i, as the API answers it. */
  ghost function PollNumber(w: World, ctx: seq<bool>, a: nat, i: nat): Poll
    requires i < |ctx|
  {
    match ReadAction(WorldAfter(w, i), a).0
    case Failed(_) => Unanswered(ctx[i])
    case Got(status) => Answered(status)
  }

  /** Waiting ends with the n-th poll: the earlier ones are pending, or fail with a live
      context, and this one is answered with completion, or fails with the context
      over, or is the last there is room for. */
  ghost predicate EndsWith(w: World, ctx: seq<bool>, a: nat, n: nat) {
    && n <= |ctx|
    && (forall i :: 0 <= i < n - 1 ==> KeepsWaiting(PollNumber(w, ctx, a, i)))
    && (n == |ctx| || (0 < n && !KeepsWaiting(PollNumber(w, ctx, a, n - 1))))
  }

  /** After the first poll the others are those of a wait that begins then. */
  lemma OnePollLater(w: World, ctx: seq<bool>, a: nat, i: nat)
    requires i + 1 < |ctx|
    ensures PollNumber(w, ctx, a, i + 1) == PollNumber(Arrive(w), ctx[1..], a, i)
  {
    OnePollLess(w, i);
  }

  /** What waiting comes to when it ends with the n-th poll. */
  ghost function EndOf(w: World, ctx: seq<bool>, a: nat, n: nat): (bool, World)
    requires n <= |ctx|
  {
    (0 < n && PollNumber(w, ctx, a, n - 1) == Answered(Completed), WorldAfter(w, n))
  }

  lemma EndsLater(w: World, ctx: seq<bool>, a: nat, n: nat)
    requires ctx != [] && KeepsWaiting(PollNumber(w, ctx, a, 0))
    requires EndsWith(Arrive(w), ctx[1..], a, n)
    ensures EndsWith(w, ctx, a, n + 1)
  {
    forall i | 0 <= i < n
      ensures KeepsWaiting(PollNumber(w, ctx, a, i))
    {
      if 0 < i {
        OnePollLater(w, ctx, a, i - 1);
      }
    }
    if 0 < n {
      OnePollLater(w, ctx, a, n - 1);
    }
  }

  lemma SameEnd(w: World, ctx: seq<bool>, a: nat, n: nat)
    requires ctx != [] && KeepsWaiting(PollNumber(w, ctx, a, 0)) && n <= |ctx| - 1
    ensures EndOf(w, ctx, a, n + 1) == EndOf(Arrive(w), ctx[1..], a, n)
  {
    OnePollLess(w, n);
    if 0 < n {
      OnePollLater(w, ctx, a, n - 1);
    }
  }

  /** The first poll, which the wait ends with or goes on from. */
  lemma FirstPoll(w: World, ctx: seq<bool>, a: nat)
    requires ctx != []
    ensures WorldAfter(w, 1) == Arrive(w)
    ensures WaitOutcome(w, ctx, a)
         == if KeepsWaiting(PollNumber(w, ctx, a, 0)) then WaitOutcome(Arrive(w), ctx[1..], a) else EndOf(w, ctx, a, 1)
  {
    assert WorldAfter(w, 1) == Arrive(WorldAfter(w, 0));
  }

  /** Waiting ends so, and succeeds if and only if the poll it ends with is answered with
      completion. */
  lemma {:induction false} WaitEnds(w: World, ctx: seq<bool>, a: nat) returns (n: nat)
    ensures EndsWith(w, ctx, a, n)
    ensures WaitOutcome(w, ctx, a) == EndOf(w, ctx, a, n)
    decreases |ctx|
  {
    if ctx == [] {
      return 0;
    }
    FirstPoll(w, ctx, a);
    if !KeepsWaiting(PollNumber(w, ctx, a, 0)) {
      return 1;
    }
    n := WaitEnds(Arrive(w), ctx[1..], a);
    EndsLater(w, ctx, a, n);
    SameEnd(w, ctx, a, n);
    n := n + 1;
  }

  /** Poll number n is answered with completion, and every one before with another status,
      or not at all while the context is live. */
  ghost predicate SucceedsAt(w: World, ctx: seq<bool>, a: nat, n: nat)
    requires n < |ctx|
  {
    && ReadAction(WorldAfter(w, n), a).0 == Got(Completed)
    && forall i :: 0 <= i < n ==>
         var reply := ReadAction(WorldAfter(w, i), a).0;
         reply == Got(InProgress) || reply == Got(Errored) || (reply.Failed? && !ctx[i])
  }

  lemma PollSpelledOut(w: World, ctx: seq<bool>, a: nat, i: nat)
    requires i < |ctx|
    ensures var reply, poll := ReadAction(WorldAfter(w, i), a).0, PollNumber(w, ctx, a, i);
            && (poll == Answered(Completed) <==> reply == Got(Completed))
            && (KeepsWaiting(poll) <==> reply == Got(InProgress) || reply == Got(Errored) || (reply.Failed? && !ctx[i]))
  {
  }

  /** Waiting succeeds if and only if a poll is answered with completion while every
      earlier one is pending or fails with a live context. */
  lemma WaitSucceeds(w: World, ctx: seq<bool>, a: nat)
    ensures WaitOutcome(w, ctx, a).0 <==> exists n :: 0 <= n < |ctx| && SucceedsAt(w, ctx, a, n)
  {
    var m := WaitEnds(w, ctx, a);
    forall i | 0 <= i < |ctx|
      ensures var reply, poll := ReadAction(WorldAfter(w, i), a).0, PollNumber(w, ctx, a, i);
              && (poll == Answered(Completed) <==> reply == Got(Completed))
              && (KeepsWaiting(poll) <==>
                  reply == Got(InProgress) || reply == Got(Errored) || (reply.Failed? && !ctx[i]))
    {
      PollSpelledOut(w, ctx, a, i);
    }
    if WaitOutcome(w, ctx, a).0 {
      assert SucceedsAt(w, ctx, a, m - 1);
    }
    if n :| 0 <= n < |ctx| && SucceedsAt(w, ctx, a, n) {
      assert !KeepsWaiting(PollNumber(w, ctx, a, n));
    }
  }

  // ---- What its success proves ---------------------------------------------

  /** Waiting for an action that the API has accepted: success shows its effect. */
  method AwaitEffect(cloud: Cloud, v: Id, kind: Kind, a: nat, ctx: seq<bool>) returns (done: bool, ghost k: nat)
    requires cloud.Valid() && Tracked(cloud.s, a, v, kind)
    requires cloud.s.actions[a].status.Completed? ==> Done(cloud.s, v, kind)
    modifies cloud`s, cloud`history, cloud`log, cloud`schedule
    ensures cloud.Valid() && Moved(cloud.policy, old(cloud.history), cloud.history)
    ensures (done, cloud.Now()) == WaitOutcome(old(cloud.Now()), ctx, a)
    ensures |old(cloud.history)| - 1 <= k < |cloud.history| && (done ==> Done(cloud.history[k], v, kind))
  {
    ghost var i := |cloud.history| - 1;
    k := i;
    done := WaitAction(cloud, a, ctx);
    if done {
      k := CompletionInstant(cloud.history, cloud.log, i, |cloud.history| - 1, a, v, kind);
    }
  }

  // ---- Asking for an action and waiting ------------------------------------

  datatype ActResult = Refused(error: ApiError) | Finished | TimedOut

  /** What becomes of an action that is asked for and waited for. */
  ghost function ActOutcome(w: World, v: Id, kind: Kind, limit: nat, ctx: seq<bool>): (ActResult, World) {
    var (reply, at) := Acted(w, v, kind, limit);
    match reply
    case Failed(error) => (Refused(error), at)
    case Got(None) => (Finished, at)
    case Got(Some(a)) =>
      var (done, after) := WaitOutcome(at, ctx, a.id);
      (if done then Finished else TimedOut, after)
  }

  /** An action that is not refused is carried out if it has finished, and if not, then
      under way, unless the wait had no room to see it. */
  ghost predicate Taken(before: State, v: Id, kind: Kind, queued: bool, finished: bool, after: State) {
    || (!queued && after == Next(before, Apply(v, kind)))
    || (!finished && after == Next(before, Start(v, kind)))
  }

  /** With nobody else at work the state decides whether the action is refused; if not,
      and it stays queued, waiting for it runs out of time. */
  lemma CalmAct(w: World, v: Id, kind: Kind, limit: nat, ctx: seq<bool>)
    requires Calm(w.left)
    ensures var (result, after) := ActOutcome(w, v, kind, limit, ctx);
            var refusal := Refusal(w.s, v, kind, limit);
            && Calm(after.left) && (w.left == [] ==> after.left == [])
            && if refusal.Some? then result == Refused(refusal.value) && after.s == w.s
               else !result.Refused? && Taken(w.s, v, kind, w.left == [], result.Finished?, after.s)
  {
    CalmMeets(w.s, w.left);
    var (reply, at) := Acted(w, v, kind, limit);
    if reply.Got? && reply.value.Some? {
      NotRefusedIsAdmissible(w.s, v, kind, limit);
      CalmWait(at, ctx, reply.value.value.id);
    }
  }

  lemma {:induction false} WaitAsks(w: World, ctx: seq<bool>, a: nat)
    ensures WaitOutcome(w, ctx, a).1.asked == w.asked
    decreases |ctx|
  {
    if ctx != [] {
      WaitAsks(Arrive(w), ctx[1..], a);
    }
  }

  lemma ActAsks(w: World, v: Id, kind: Kind, limit: nat, ctx: seq<bool>)
    ensures ActOutcome(w, v, kind, limit, ctx).1.asked == w.asked + [ActRequest(v, kind)]
  {
    var (reply, at) := Acted(w, v, kind, limit);
    if reply.Got? && reply.value.Some? {
      WaitAsks(at, ctx, reply.value.value.id);
    }
  }

  lemma {:induction false} WaitKeepsInv(w: World, ctx: seq<bool>, a: nat)
    requires Inv(w.s)
    ensures Inv(WaitOutcome(w, ctx, a).1.s)
    decreases |ctx|
  {
    if ctx != [] {
      ArriveKeepsInv(w);
      WaitKeepsInv(Arrive(w), ctx[1..], a);
    }
  }

  lemma ActKeepsInv(w: World, v: Id, kind: Kind, limit: nat, ctx: seq<bool>)
    requires Inv(w.s)
    ensures Inv(ActOutcome(w, v, kind, limit, ctx).1.s)
  {
    ActedKeepsInv(w, v, kind, limit);
    var (reply, at) := Acted(w, v, kind, limit);
    if reply.Got? && reply.value.Some? {
      WaitKeepsInv(at, ctx, reply.value.value.id);
    }
  }

  /** The request for an action, and the wait for it; its result is so at instant k. */
  method ActAndWait(cloud: Cloud, v: Id, kind: Kind, ctx: seq<bool>) returns (result: ActResult, ghost k: nat)
    requires cloud.Valid() && BoundedKind(kind)
    modifies cloud`s, cloud`history, cloud`log, cloud`schedule, cloud`requests
    ensures cloud.Valid() && Moved(cloud.policy, old(cloud.history), cloud.history)
    ensures cloud.requests == old(cloud.requests) + [ActRequest(v, kind)]
    ensures (result, cloud.Now()) == ActOutcome(old(cloud.Now()), v, kind, cloud.limit, ctx)
    ensures |old(cloud.history)| - 1 <= k < |cloud.history|
    ensures result.Finished? ==> Done(cloud.history[k], v, kind)
    ensures result.Refused? && result.error != Other ==>
              Refusal(cloud.history[k], v, kind, cloud.limit) == Some(result.error)
  {
    var reply := cloud.Act(v, kind);
    ghost var h := cloud.history;
    k := |h| - 1;
    match reply
    case Failed(error) =>
      result := Refused(error);
    case Got(None) =>
      result := Finished;
    case Got(Some(a)) =>
      var done;
      done, k := AwaitEffect(cloud, v, kind, a.id, ctx);
      MovedTransitive(cloud.policy, old(cloud.history), h, cloud.history);
      result := if done then Finished else TimedOut;
  }
}
