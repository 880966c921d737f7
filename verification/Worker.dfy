/** The worker's own objects (`src/ftq/worker.py`), changed in place by its coroutines. Each method is
    proved to take exactly the step of `WorkerSlots` or `ProcessPool` that it stands for. */
module WorkerObjects {
  import opened QueueTypes
  import W = WorkerSlots
  import P = ProcessPool

  /** A claimed or fetched entry, about to become a task. */
  datatype Claim = Claim(t: W.Task, phase: W.Phase, suspect: bool)

  function TasksOf(claims: seq<Claim>): map<W.Task, W.Phase> {
    if claims == [] then map[]
    else
      var last := claims[|claims| - 1];
      TasksOf(claims[..|claims| - 1])[last.t := last.phase]
  }

  function SuspectsOf(claims: seq<Claim>): set<W.Task> {
    set c | c in claims && c.suspect :: c.t
  }

  lemma ClaimsNext(claims: seq<Claim>, i: nat)
    requires i < |claims|
    ensures TasksOf(claims[..i + 1]) == TasksOf(claims[..i])[claims[i].t := claims[i].phase]
    ensures SuspectsOf(claims[..i + 1]) == SuspectsOf(claims[..i]) + if claims[i].suspect then {claims[i].t} else {}
  {
    var upTo, c := claims[..i + 1], claims[i];
    assert upTo[..i] == claims[..i] && upTo == claims[..i] + [c];
    assert forall t :: t in SuspectsOf(upTo) <==> t in SuspectsOf(claims[..i]) || (c.suspect && t == c.t) by {
      forall t | t in SuspectsOf(upTo) ensures t in SuspectsOf(claims[..i]) || (c.suspect && t == c.t) {
        var k :| k in upTo && k.suspect && k.t == t;
        assert k in claims[..i] || k == c;
      }
      forall t | t in SuspectsOf(claims[..i]) ensures t in SuspectsOf(upTo) {
        var k :| k in claims[..i] && k.suspect && k.t == t;
        assert k in upTo;
      }
      assert c in upTo;
    }
  }

  class Worker {
    const concurrency: nat
    var inFlight: map<W.Task, W.Phase>
    var orphans: set<W.Task>
    var suspects: set<W.Task>
    var reserved: nat
    var asked: nat
    var calls: set<W.Call>

    ghost function View(): W.Slots
      reads this
    {
      W.Slots(inFlight, orphans, suspects, reserved, asked, calls)
    }

    constructor (c: nat)
      ensures concurrency == c && W.IsIdle(View())
    {
      concurrency, inFlight, orphans, suspects, reserved, asked, calls := c, map[], {}, {}, 0, 0, {};
    }

    /** The top of the fetch loop: reap or read if a slot is free, else wait. */
    method OfferSlots() returns (free: int)
      requires reserved == 0 && W.FetchCall !in calls
      modifies this
      ensures free == W.Free(concurrency, old(View()))
      ensures View() == if 0 < free then W.Step(concurrency, old(View()), W.Offer) else old(View())
    {
      free := concurrency - |inFlight| - |orphans|;
      if free <= 0 {
        return;
      }
      reserved, asked := free, if suspects == {} then 1 else 0;
      calls := calls + {W.FetchCall};
    }

    method Spawn(t: W.Task, phase: W.Phase)
      modifies this`inFlight
      ensures inFlight == old(inFlight)[t := phase]
    {
      inFlight := inFlight[t := phase];
    }

    /** The reply's loop: every entry becomes a task, and a suspect is remembered as one. */
    method SpawnAll(claims: seq<Claim>)
      modifies this`inFlight, this`suspects
      ensures inFlight == old(inFlight) + TasksOf(claims) && suspects == old(suspects) + SuspectsOf(claims)
    {
      var i := 0;
      while i < |claims|
        invariant i <= |claims|
        invariant inFlight == old(inFlight) + TasksOf(claims[..i]) && suspects == old(suspects) + SuspectsOf(claims[..i])
      {
        ClaimsNext(claims, i);
        Spawn(claims[i].t, claims[i].phase);
        if claims[i].suspect {
          suspects := suspects + {claims[i].t};
        }
        i := i + 1;
      }
      assert claims[..i] == claims;
    }

    /** The reply to a reap or a read. After a reap that left slots free, the loop goes on to read. */
    method StartAll(claims: seq<Claim>, again: bool)
      requires W.Possible(concurrency, View(), W.Reply(TasksOf(claims), SuspectsOf(claims), again))
      requires |TasksOf(claims)| == |claims|
      modifies this
      ensures View() == W.Step(concurrency, old(View()), W.Reply(TasksOf(claims), SuspectsOf(claims), again))
    {
      SpawnAll(claims);
      var free := reserved - |claims|;
      asked := 0;
      if again && free > 0 {
        reserved := free;
      } else {
        reserved := 0;
        calls := calls - {W.FetchCall};
      }
    }

    /** `_stop_run` after a timeout: the job moves on, and a run that has not stopped keeps a slot. */
    method StopRun(t: W.Task, stopped: bool)
      requires W.IsRunning(View(), t)
      modifies this
      ensures View() == W.Step(concurrency, old(View()),
                               W.TimeOut(t, !old(inFlight)[t].kind.ProcessRun? && !stopped))
    {
      var isProcess := inFlight[t].kind.ProcessRun?;
      inFlight := inFlight[t := W.Moving];
      calls := calls - {W.BeatCall(t)};
      if isProcess || stopped {
        calls := calls - {W.RunCall(t)};
        return;
      }
      orphans := orphans + {t};
    }
  }

  class ProcessRuns {
    const size: nat
    var runs: map<P.Run, P.Place>
    var ended: map<P.Run, P.Cause>
    var processPool: Option<P.Pool>
    var nextPool: P.Pool
    var ready: set<P.Pool>
    var failed: set<P.Pool>
    var resetPools: set<P.Pool>
    var died: set<P.Pool>

    ghost function View(): P.Pools
      reads this
    {
      P.Pools(runs, ended, processPool, nextPool, ready, failed, resetPools, died)
    }

    constructor (n: nat)
      ensures size == n && P.IsIdle(View())
    {
      size, runs, ended, processPool, nextPool := n, map[], map[], None, 0;
      ready, failed, resetPools, died := {}, {}, {}, {};
    }

    method End(r: P.Run, why: P.Cause)
      modifies this`runs, this`ended
      ensures runs == old(runs) - {r} && ended == old(ended)[r := why]
    {
      runs, ended := runs - {r}, ended[r := why];
    }

    /** `_ready_processes`: a new pool if there is none; in at once if it is ready, and an error if
        it failed to start. */
    method ReadyProcesses(r: P.Run, now: int)
      modifies this
      ensures View() == P.Enter(old(View()), r, now)
    {
      if processPool.None? {
        processPool, nextPool := Some(nextPool), nextPool + 1;
        runs := runs[r := P.Waiting(processPool.value)];
        return;
      }
      var p := processPool.value;
      if p in failed {
        End(r, P.StartFailed(p));
      } else {
        runs := runs[r := if p in ready then P.Inside(p, now) else P.Waiting(p)];
      }
    }

    method ForgetPool(p: P.Pool)
      modifies this`processPool
      ensures processPool == P.Forget(old(processPool), p)
    {
      if processPool == Some(p) {
        processPool := None;
      }
    }

    /** A run's time is up: kill its pool, and with it everybody else's run in there. */
    method TimeOut(r: P.Run, now: int, limit: P.Run -> nat)
      requires P.Possible(size, limit, View(), P.TimeOut(r, now))
      modifies this
      ensures View() == P.Step(size, limit, old(View()), P.TimeOut(r, now))
    {
      var p, since := runs[r].pool, runs[r].since;
      ForgetPool(p);
      resetPools := resetPools + {p};
      End(r, P.OwnTimeout(now - since));
    }

    /** BrokenProcessPool reaches a run: restart it if we killed the pool, fail it otherwise. */
    method Broken(r: P.Run, now: int, limit: P.Run -> nat)
      requires P.Possible(size, limit, View(), P.Broken(r, now))
      modifies this
      ensures View() == P.Step(size, limit, old(View()), P.Broken(r, now))
    {
      var p := runs[r].pool;
      if p in resetPools {
        ReadyProcesses(r, now);
      } else {
        ForgetPool(p);
        End(r, P.PoolBroke(p));
      }
    }
  }
}
