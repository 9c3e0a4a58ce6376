/** Dispatch, registration and Stop on different threads. A dispatch copies the callback
    list under the lock, checks the stopped flag without it, then runs its copy; On...
    checks the flag before it takes the lock; Stop sets the flag and clears the list. */
module DispatchRuns {
  import opened Wrappers

  datatype Phase =
    | Registering(callback: nat)
    | Copied(snapshot: seq<nat>)
    | Running(snapshot: seq<nat>, done: nat)

  datatype Ran = Ran(dispatch: nat, callback: nat)

  /** `copies` and `ran` are history: what each dispatch copied, and every invocation. */
  datatype Subscriber = Subscriber(
    stopped: bool,
    callbacks: seq<nat>,
    threads: map<nat, Phase>,
    used: set<nat>,
    copies: map<nat, seq<nat>>,
    ran: seq<Ran>)

  datatype Act =
    | PassOn(thread: nat, callback: nat)
    | Push(thread: nat)
    | Copy(thread: nat)
    | Check(thread: nat)
    | RunOne(thread: nat, throws: bool)
    | Leave(thread: nat)
    | Stop

  const FRESH := Subscriber(false, [], map[], {}, map[], [])

  predicate Can(s: Subscriber, act: Act) {
    match act
    case PassOn(t, _) => t !in s.used && !s.stopped
    case Push(t) => t in s.threads && s.threads[t].Registering?
    case Copy(t) => t !in s.used
    case Check(t) => t in s.threads && s.threads[t].Copied?
    case RunOne(t, _) => t in s.threads && s.threads[t].Running? && s.threads[t].done < |s.threads[t].snapshot|
    case Leave(t) => t in s.threads && s.threads[t].Running? && s.threads[t].done == |s.threads[t].snapshot|
    case Stop => true
  }

  function After(s: Subscriber, act: Act): Subscriber
    requires Can(s, act)
  {
    match act
    case PassOn(t, callback) => s.(threads := s.threads[t := Registering(callback)], used := s.used + {t})
    case Push(t) => s.(callbacks := s.callbacks + [s.threads[t].callback], threads := s.threads - {t})
    case Copy(t) =>
      s.(threads := s.threads[t := Copied(s.callbacks)], used := s.used + {t}, copies := s.copies[t := s.callbacks])
    case Check(t) =>
      if s.stopped then s.(threads := s.threads - {t})
      else s.(threads := s.threads[t := Running(s.threads[t].snapshot, 0)])
    case RunOne(t, _) =>
      var phase := s.threads[t];
      s.(ran := s.ran + [Ran(t, phase.snapshot[phase.done])], threads := s.threads[t := phase.(done := phase.done + 1)])
    case Leave(t) => s.(threads := s.threads - {t})
    case Stop => s.(stopped := true, callbacks := [])
  }

  ghost predicate IsRun(run: seq<Subscriber>, acts: seq<Act>) {
    && |run| == |acts| + 1 && run[0] == FRESH
    && forall i :: 0 <= i < |acts| ==> Can(run[i], acts[i]) && run[i + 1] == After(run[i], acts[i])
  }

  /** The callbacks that one dispatch has invoked, in order. */
  function RanBy(ran: seq<Ran>, t: nat): seq<nat> {
    if ran == [] then []
    else
      var last := ran[|ran| - 1];
      RanBy(ran[..|ran| - 1], t) + if last.dispatch == t then [last.callback] else []
  }

  lemma RanByExtend(ran: seq<Ran>, r: Ran, t: nat)
    ensures RanBy(ran + [r], t) == RanBy(ran, t) + if r.dispatch == t then [r.callback] else []
  {
    assert (ran + [r])[..|ran|] == ran;
  }

  ghost predicate ThreadInv(s: Subscriber, t: nat) {
    && (t in s.threads || t in s.copies ==> t in s.used)
    && (t !in s.copies ==> RanBy(s.ran, t) == [] && (t in s.threads ==> s.threads[t].Registering?))
    && (t in s.copies && t !in s.threads ==> RanBy(s.ran, t) == [] || RanBy(s.ran, t) == s.copies[t])
    && (t in s.copies && t in s.threads ==>
          match s.threads[t]
          case Registering(_) => false
          case Copied(copy) => copy == s.copies[t] && RanBy(s.ran, t) == []
          case Running(copy, done) => copy == s.copies[t] && done <= |copy| && RanBy(s.ran, t) == copy[..done])
  }

  lemma ThreadNext(s: Subscriber, act: Act, t: nat)
    requires Can(s, act) && ThreadInv(s, t)
    ensures ThreadInv(After(s, act), t)
  {
    hide RanBy;
    if act.RunOne? {
      var phase := s.threads[act.thread];
      RanByExtend(s.ran, Ran(act.thread, phase.snapshot[phase.done]), t);
      if act.thread == t && t in s.copies {
        assert phase.snapshot[..phase.done] + [phase.snapshot[phase.done]] == phase.snapshot[..phase.done + 1];
      }
    } else if act.Leave? && act.thread == t && t in s.copies {
      assert s.threads[t].snapshot[..|s.threads[t].snapshot|] == s.threads[t].snapshot;
    }
  }

  lemma {:induction false} RunThread(run: seq<Subscriber>, acts: seq<Act>, n: nat, t: nat)
    requires IsRun(run, acts) && n < |run|
    ensures ThreadInv(run[n], t)
  {
    if n > 0 {
      RunThread(run, acts, n - 1, t);
      ThreadNext(run[n - 1], acts[n - 1], t);
    }
  }

  /** Every dispatch runs a prefix of the list it copied, each entry once and in order,
      whichever callbacks throw; when it ends after its check, it has run the whole copy. */
  lemma EachOnceInOrder(run: seq<Subscriber>, acts: seq<Act>, n: nat, t: nat)
    requires IsRun(run, acts) && n < |run|
    ensures t in run[n].copies ==> RanBy(run[n].ran, t) <= run[n].copies[t]
    ensures t !in run[n].copies ==> RanBy(run[n].ran, t) == []
    ensures n < |acts| && acts[n] == Leave(t) ==> t in run[n + 1].copies && RanBy(run[n + 1].ran, t) == run[n + 1].copies[t]
  {
    RunThread(run, acts, n, t);
    if n < |acts| && acts[n] == Leave(t) {
      assert run[n].copies[t][..|run[n].copies[t]|] == run[n].copies[t];
    }
  }

  /** A dispatch copies exactly the callbacks registered so far. */
  lemma CopiesRegistered(run: seq<Subscriber>, acts: seq<Act>, n: nat, t: nat)
    requires IsRun(run, acts) && n < |acts| && acts[n] == Copy(t)
    ensures run[n + 1].copies[t] == run[n].callbacks && t !in run[n].copies
  {
    RunThread(run, acts, n, t);
  }

  /** The dispatch has passed its check of the stopped flag and is running. */
  predicate Checked(s: Subscriber, t: nat) {
    t in s.threads && s.threads[t].Running?
  }

  /** Once stopped, only the dispatches that had already passed their check go on; any
      other, including one that copied a callback registered too late, runs nothing more. */
  lemma {:induction false} NothingNewAfterStop(run: seq<Subscriber>, acts: seq<Act>, i: nat, j: nat, t: nat)
    requires IsRun(run, acts) && i <= j < |run| && run[i].stopped && !Checked(run[i], t)
    ensures run[j].stopped && !Checked(run[j], t) && RanBy(run[j].ran, t) == RanBy(run[i].ran, t)
  {
    hide RanBy;
    if i < j {
      NothingNewAfterStop(run, acts, i, j - 1, t);
      if acts[j - 1].RunOne? {
        var phase := run[j - 1].threads[acts[j - 1].thread];
        RanByExtend(run[j - 1].ran, Ran(acts[j - 1].thread, phase.snapshot[phase.done]), t);
      }
    }
  }

  /** A dispatch that checks the flag after Stop never runs a callback. */
  lemma CheckAfterStop(run: seq<Subscriber>, acts: seq<Act>, i: nat, j: nat, t: nat)
    requires IsRun(run, acts) && i < j < |run| && run[i].stopped && acts[i] == Check(t)
    ensures RanBy(run[j].ran, t) == []
  {
    RunThread(run, acts, i, t);
    NothingNewAfterStop(run, acts, i, j, t);
  }

  // ---------------------------------------------------------------- the list after Stop

  /** A stretch of a run, from any state. */
  ghost predicate IsPath(path: seq<Subscriber>, acts: seq<Act>) {
    && |path| == |acts| + 1
    && forall i :: 0 <= i < |acts| ==> Can(path[i], acts[i]) && path[i + 1] == After(path[i], acts[i])
  }

  /** Some registration has passed its check and has not reached the list yet. */
  ghost predicate SomeRegistering(s: Subscriber) {
    exists t :: t in s.threads && s.threads[t].Registering?
  }

  lemma {:induction false} StaysEmpty(path: seq<Subscriber>, acts: seq<Act>, n: nat)
    requires IsPath(path, acts) && n < |path|
    requires path[0].stopped && path[0].callbacks == [] && !SomeRegistering(path[0])
    ensures path[n].stopped && path[n].callbacks == [] && !SomeRegistering(path[n])
  {
    if n > 0 {
      StaysEmpty(path, acts, n - 1);
    }
  }

  /** After Stop the list stays empty, whatever happens, if and only if no registration had
      passed its check without reaching the list when Stop ran. */
  lemma StaysEmptyIffNoneRegistering(run: seq<Subscriber>, acts: seq<Act>, i: nat)
    requires IsRun(run, acts) && i < |acts| && acts[i] == Stop
    ensures (forall path: seq<Subscriber>, more: seq<Act> ::
               IsPath(path, more) && path[0] == run[i + 1] ==> path[|more|].callbacks == []) <==>
            !SomeRegistering(run[i])
  {
    var s := run[i + 1];
    assert s.threads == run[i].threads;
    if SomeRegistering(run[i]) {
      var t :| t in s.threads && s.threads[t].Registering?;
      var path, more := [s, After(s, Push(t))], [Push(t)];
      assert IsPath(path, more) && path[|more|].callbacks != [];
    } else {
      forall path: seq<Subscriber>, more: seq<Act> | IsPath(path, more) && path[0] == s
        ensures path[|more|].callbacks == []
      {
        assert !SomeRegistering(s);
        StaysEmpty(path, more, |more|);
      }
    }
  }

  /** Such a registration can happen: it passes its check before Stop and lands afterwards.
      By NothingNewAfterStop it is never run. */
  lemma LateRegistration()
    ensures var run := [FRESH, After(FRESH, PassOn(0, 7)), After(After(FRESH, PassOn(0, 7)), Stop),
                        After(After(After(FRESH, PassOn(0, 7)), Stop), Push(0))];
            IsRun(run, [PassOn(0, 7), Stop, Push(0)]) && run[3].stopped && run[3].callbacks == [7]
  {
  }
}
