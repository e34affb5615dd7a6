/**
 The pool of media workers: round-robin picks, and a replacement for every worker that dies.
 A worker is known by its process id, which is never used twice; creating one takes time, so
 a replacement under way is a step of its own.
 */
module WorkerPooling {
  import opened Prelude

  datatype Pool = Pool(workers: seq<nat>, next: nat, nextPid: nat, spawning: nat, failed: nat)

  datatype Action = Launch | Died(worker: nat) | Spawned | SpawnFailed | Pick | Stop

  const EMPTY := Pool([], 0, 0, 0, 0)

  function Without(workers: seq<nat>, worker: nat): (rest: seq<nat>)
    ensures forall w :: w in rest <==> w in workers && w != worker
  {
    if workers == [] then []
    else (if workers[0] == worker then [] else [workers[0]]) + Without(workers[1..], worker)
  }

  function Picked(p: Pool): Option<nat> {
    if p.workers == [] then None else Some(p.workers[p.next % |p.workers|])
  }

  function Step(p: Pool, a: Action): Pool {
    match a
    case Launch => p.(workers := p.workers + [p.nextPid], nextPid := p.nextPid + 1)
    case Died(w) => p.(workers := Without(p.workers, w), spawning := p.spawning + 1)
    case Spawned =>
      if p.spawning == 0 then p
      else p.(workers := p.workers + [p.nextPid], nextPid := p.nextPid + 1, spawning := p.spawning - 1)
    case SpawnFailed => if p.spawning == 0 then p else p.(spawning := p.spawning - 1, failed := p.failed + 1)
    case Pick => if p.workers == [] then p else p.(next := (p.next + 1) % |p.workers|)
    case Stop => p.(workers := [])
  }

  function RunFrom(p: Pool, actions: seq<Action>): Pool {
    if actions == [] then p else Step(RunFrom(p, actions[..|actions| - 1]), actions[|actions| - 1])
  }

  // -------------------------------------------------------------------- round robin

  /** The workers handed out by the next k picks. */
  function Picks(p: Pool, k: nat): seq<nat>
    requires p.workers != []
    decreases k
  {
    if k == 0 then [] else [Picked(p).value] + Picks(Step(p, Pick), k - 1)
  }

  function Count(picks: seq<nat>, worker: nat): nat {
    if picks == [] then 0 else (if picks[0] == worker then 1 else 0) + Count(picks[1..], worker)
  }

  ghost predicate Distinct(workers: seq<nat>) {
    forall i, j :: 0 <= i < j < |workers| ==> workers[i] != workers[j]
  }

  /** How many picks it takes until the turn of worker j comes. */
  function Wait(p: Pool, j: nat): nat
    requires j < |p.workers|
  {
    var turn := p.next % |p.workers|;
    if turn <= j then j - turn else |p.workers| + j - turn
  }

  lemma WaitShrinks(p: Pool, j: nat)
    requires j < |p.workers| && Distinct(p.workers)
    ensures Wait(p, j) < |p.workers|
    ensures Picked(p) == Some(p.workers[j]) <==> Wait(p, j) == 0
    ensures Wait(Step(p, Pick), j) == if Wait(p, j) == 0 then |p.workers| - 1 else Wait(p, j) - 1
  {
    var n, turn := |p.workers|, p.next % |p.workers|;
    assert turn != j ==> p.workers[turn] != p.workers[j];
    NextTurn(p.next, n);
  }

  lemma NextTurn(next: nat, n: nat)
    requires 0 < n
    ensures (next + 1) % n == if next % n + 1 == n then 0 else next % n + 1
    ensures (next + 1) % n % n == (next + 1) % n
  {
    var q, r := next / n, next % n;
    assert next == q * n + r;
    if r + 1 == n {
      assert next + 1 == (q + 1) * n;
      QuotientIs(next + 1, q + 1, n, 0);
    } else {
      QuotientIs(next + 1, q, n, r + 1);
    }
    QuotientIs((next + 1) % n, 0, n, (next + 1) % n);
  }

  lemma QuotientIs(x: nat, q: nat, n: nat, r: nat)
    requires r < n && x == q * n + r
    ensures x / n == q && x % n == r
  {
    var d: int := x / n - q;
    assert d * n == r - x % n;
    NoMultiple(d, n);
    NoMultiple(-d, n);
  }

  lemma NoMultiple(d: int, n: nat)
    requires d * n < n
    ensures d <= 0
  {
    if d > 0 {
      AtLeast(d, n);
    }
  }

  lemma AtLeast(d: nat, n: nat)
    requires d > 0
    ensures d * n >= n
  {
    assert d * n == n + (d - 1) * n;
  }

  /** A worker whose turn comes after d picks is picked at picks d, d + n, d + 2n, ... */
  lemma {:induction false} PicksOfOne(p: Pool, k: nat, j: nat)
    requires j < |p.workers| && Distinct(p.workers)
    ensures Count(Picks(p, k), p.workers[j]) == (k + |p.workers| - 1 - Wait(p, j)) / |p.workers|
    decreases k
  {
    var n, d := |p.workers|, Wait(p, j);
    WaitShrinks(p, j);
    if k == 0 {
      QuotientIs(n - 1 - d, 0, n, n - 1 - d);
    } else {
      PicksOfOne(Step(p, Pick), k - 1, j);
      assert Picks(p, k)[1..] == Picks(Step(p, Pick), k - 1);
      if d == 0 {
        OneRoundMore(k - 1, n);
      }
    }
  }

  lemma OneRoundMore(k: nat, n: nat)
    requires 0 < n
    ensures (k + n) / n == k / n + 1
  {
    QuotientIs(k + n, k / n + 1, n, k % n);
  }

  /** Any k picks in a row hand out each of the n workers k / n times, rounded down or up. */
  lemma RoundRobinIsFair(p: Pool, k: nat, worker: nat)
    requires Distinct(p.workers) && worker in p.workers
    ensures k / |p.workers| <= Count(Picks(p, k), worker) <= (k + |p.workers| - 1) / |p.workers|
  {
    var n := |p.workers|;
    var j :| 0 <= j < n && p.workers[j] == worker;
    PicksOfOne(p, k, j);
    WaitShrinks(p, j);
    Monotone(k, k + n - 1 - Wait(p, j), n);
    Monotone(k + n - 1 - Wait(p, j), k + n - 1, n);
  }

  lemma Monotone(x: nat, y: nat, n: nat)
    requires 0 < n && x <= y
    ensures x / n <= y / n
  {
    var d := x / n - y / n;
    assert d * n == x - y + y % n - x % n;
    NoMultiple(d, n);
  }

  /** Whose turn it is i picks from now. */
  function Turn(next: nat, i: nat, n: nat): nat
    requires 0 < n
  {
    (next + i) % n
  }

  lemma TurnAfterPick(next: nat, i: nat, n: nat)
    requires 0 < n
    ensures (next + 1) % n >= 0 && Turn((next + 1) % n, i, n) == Turn(next, i + 1, n)
  {
    TurnsAddUp(next + 1, i, n);
  }

  /** Picks go through the pool in its order, from the worker whose turn it is. */
  lemma {:induction false} PicksInTurn(p: Pool, k: nat, i: nat)
    requires p.workers != [] && i < k
    ensures |Picks(p, k)| == k && Picks(p, k)[i] == p.workers[(p.next + i) % |p.workers|]
    decreases k
  {
    PicksCount(p, k);
    if i > 0 {
      LaterPick(p, k, i);
      PicksInTurn(Step(p, Pick), k - 1, i - 1);
      TurnAfterPick(p.next, i - 1, |p.workers|);
    }
  }

  lemma LaterPick(p: Pool, k: nat, i: nat)
    requires p.workers != [] && 0 < i < k
    ensures Step(p, Pick).workers == p.workers && Step(p, Pick).next == (p.next + 1) % |p.workers|
    ensures |Picks(p, k)| == k && |Picks(Step(p, Pick), k - 1)| == k - 1
    ensures Picks(p, k)[i] == Picks(Step(p, Pick), k - 1)[i - 1]
  {
    PicksCount(p, k);
    PicksCount(Step(p, Pick), k - 1);
  }

  lemma {:induction false} PicksCount(p: Pool, k: nat)
    requires p.workers != []
    ensures |Picks(p, k)| == k
    decreases k
  {
    if k > 0 {
      PicksCount(Step(p, Pick), k - 1);
    }
  }

  lemma TurnsAddUp(a: nat, b: nat, n: nat)
    requires 0 < n
    ensures (a % n + b) % n == (a + b) % n
  {
    var q, r := (a % n + b) / n, (a % n + b) % n;
    assert a + b == (a / n + q) * n + r;
    QuotientIs(a + b, a / n + q, n, r);
  }

  /** Launches fill an empty pool in order, so that the first pick is the first launched. */
  lemma {:induction false} LaunchesInOrder(n: nat)
    ensures RunFrom(EMPTY, seq(n, _ => Launch)) == Pool(seq(n, i => i), 0, n, 0, 0)
  {
    if n > 0 {
      LaunchesInOrder(n - 1);
      var launches := seq(n, _ => Launch);
      assert launches[..n - 1] == seq(n - 1, _ => Launch) && launches[n - 1] == Launch;
      assert seq(n, i => i) == seq(n - 1, i => i) + [n - 1];
    }
  }

  /** A death takes the one worker out, and the others close the gap in their order; a
      replacement comes in at the end. */
  lemma {:induction false} DeathClosesGap(workers: seq<nat>, k: nat)
    requires Distinct(workers) && k < |workers|
    ensures Without(workers, workers[k]) == workers[..k] + workers[k + 1..]
  {
    if k == 0 {
      NotThere(workers[1..], workers[0]);
      assert workers[..0] + workers[1..] == workers[1..];
    } else {
      DeathClosesGap(workers[1..], k - 1);
      assert workers[1..][..k - 1] == workers[1..k] && workers[1..][k..] == workers[k + 1..];
      assert [workers[0]] + (workers[1..k] + workers[k + 1..]) == workers[..k] + workers[k + 1..];
    }
  }

  lemma {:induction false} NotThere(workers: seq<nat>, worker: nat)
    requires worker !in workers
    ensures Without(workers, worker) == workers
  {
    if workers != [] {
      assert workers[0] in workers;
      NotThere(workers[1..], worker);
    }
  }

  // -------------------------------------------------------------------- runs

  /** No worker is twice in the pool, and all are known. */
  ghost predicate PoolOk(p: Pool) {
    Distinct(p.workers) && forall w :: w in p.workers ==> w < p.nextPid
  }

  lemma {:induction false} WithoutStaysDistinct(workers: seq<nat>, worker: nat)
    requires Distinct(workers)
    ensures Distinct(Without(workers, worker))
    ensures |Without(workers, worker)| == |workers| - if worker in workers then 1 else 0
  {
    if workers != [] {
      WithoutStaysDistinct(workers[1..], worker);
      var rest := Without(workers[1..], worker);
      assert workers[0] !in workers[1..];
      assert workers[0] !in rest;
      assert forall i, j :: 0 <= i < j < |[workers[0]] + rest| ==> ([workers[0]] + rest)[i] != ([workers[0]] + rest)[j];
    }
  }

  lemma StepKeepsPool(p: Pool, a: Action)
    requires PoolOk(p)
    ensures PoolOk(Step(p, a)) && p.nextPid <= Step(p, a).nextPid
    ensures forall w :: w in Step(p, a).workers && w < p.nextPid ==> w in p.workers
  {
    match a {
      case Died(w) => WithoutStaysDistinct(p.workers, w);
      case _ => assert p.nextPid !in p.workers && Distinct(p.workers);
    }
  }

  lemma {:induction false} RunKeepsPool(p: Pool, actions: seq<Action>)
    requires PoolOk(p)
    ensures PoolOk(RunFrom(p, actions)) && p.nextPid <= RunFrom(p, actions).nextPid
    ensures forall w :: w in RunFrom(p, actions).workers && w < p.nextPid ==> w in p.workers
  {
    if actions != [] {
      RunKeepsPool(p, actions[..|actions| - 1]);
      StepKeepsPool(RunFrom(p, actions[..|actions| - 1]), actions[|actions| - 1]);
    }
  }

  /** Once a worker has died no pick ever hands it out again, whatever happens in between. */
  lemma DeadAreNotPicked(p: Pool, worker: nat, later: seq<Action>)
    requires PoolOk(p) && worker < p.nextPid
    ensures Picked(RunFrom(Step(p, Died(worker)), later)) != Some(worker)
  {
    StepKeepsPool(p, Died(worker));
    RunKeepsPool(Step(p, Died(worker)), later);
    assert worker !in RunFrom(Step(p, Died(worker)), later).workers;
  }

  /** Every death is that of a worker in the pool: each dies once, and none after a stop. */
  ghost predicate Orderly(p: Pool, actions: seq<Action>) {
    actions == [] ||
    var before := actions[..|actions| - 1];
    var a := actions[|actions| - 1];
    Orderly(p, before) && a != Stop && (a.Died? ==> a.worker in RunFrom(p, before).workers)
  }

  function Launches(actions: seq<Action>): nat {
    if actions == [] then 0
    else Launches(actions[..|actions| - 1]) + if actions[|actions| - 1] == Launch then 1 else 0
  }

  /** Until a stop no worker is lost: those in the pool, the replacements under way and the
      replacements that failed add up to the workers that were launched. */
  lemma {:induction false} WorkersAddUp(actions: seq<Action>)
    requires Orderly(EMPTY, actions)
    ensures var p := RunFrom(EMPTY, actions); |p.workers| + p.spawning + p.failed == Launches(actions)
  {
    if actions != [] {
      var before, a := actions[..|actions| - 1], actions[|actions| - 1];
      WorkersAddUp(before);
      RunKeepsPool(EMPTY, before);
      if a.Died? {
        WithoutStaysDistinct(RunFrom(EMPTY, before).workers, a.worker);
      }
    }
  }

  ghost predicate Aftermath(actions: seq<Action>) {
    forall i :: 0 <= i < |actions| ==> actions[i] == Spawned || actions[i] == SpawnFailed || actions[i] == Pick
  }

  lemma {:induction false} NothingToSpawn(p: Pool, actions: seq<Action>)
    requires p.workers == [] && p.spawning == 0 && Aftermath(actions)
    ensures RunFrom(p, actions) == p
  {
    if actions != [] {
      NothingToSpawn(p, actions[..|actions| - 1]);
    }
  }

  /** A stopped pool stays empty for certain exactly if no replacement was under way: one
      that was joins the stopped pool, and nobody closes it. */
  lemma StopIsFinalUnlessSpawning(p: Pool)
    ensures (forall later :: Aftermath(later) ==> RunFrom(Step(p, Stop), later).workers == []) <==> p.spawning == 0
  {
    if p.spawning == 0 {
      forall later | Aftermath(later)
        ensures RunFrom(Step(p, Stop), later).workers == []
      {
        NothingToSpawn(Step(p, Stop), later);
      }
    } else {
      var later := [Spawned];
      assert later[..0] == [] && RunFrom(Step(p, Stop), []) == Step(p, Stop);
      assert Aftermath(later) && RunFrom(Step(p, Stop), later).workers == [p.nextPid];
    }
  }

  // -------------------------------------------------------------------- the code

  class WorkerPool {
    var workers: seq<nat>
    var nextWorkerIndex: nat
    var nextPid: nat
    var spawning: nat
    var failed: nat
    var closed: set<nat>

    ghost function St(): Pool
      reads this
    {
      Pool(workers, nextWorkerIndex, nextPid, spawning, failed)
    }

    constructor ()
      ensures St() == EMPTY && closed == {}
    {
      workers, nextWorkerIndex, nextPid, spawning, failed, closed := [], 0, 0, 0, 0, {};
    }

    method CreateWorker() returns (worker: nat)
      modifies this`nextPid
      ensures worker == old(nextPid) && nextPid == old(nextPid) + 1
    {
      worker := nextPid;
      nextPid := nextPid + 1;
    }

    method Start(numWorkers: nat)
      modifies this
      ensures closed == old(closed)
      ensures St() == RunFrom(old(St()), seq(numWorkers, _ => Launch))
    {
      for i := 0 to numWorkers
        invariant closed == old(closed)
        invariant St() == RunFrom(old(St()), seq(i, _ => Launch))
      {
        var worker := CreateWorker();
        workers := workers + [worker];
        assert seq(i + 1, _ => Launch)[..i] == seq(i, _ => Launch);
      }
    }

    /** Closes every worker of the pool; replacements under way are not waited for. */
    method Stop()
      modifies this
      ensures St() == Step(old(St()), Action.Stop)
      ensures closed == old(closed) + set w | w in old(workers)
    {
      for i := 0 to |workers|
        invariant workers == old(workers) && St() == old(St())
        invariant closed == old(closed) + set w | w in workers[..i]
      {
        closed := closed + {workers[i]};
        assert workers[..i + 1] == workers[..i] + [workers[i]];
      }
      assert workers[..|workers|] == workers;
      workers := [];
    }

    /** No worker is the source's error. */
    method Pick() returns (worker: Option<nat>)
      modifies this`nextWorkerIndex
      ensures worker == Picked(old(St())) && St() == Step(old(St()), Action.Pick)
      ensures workers == [] ==> worker == None
      ensures workers != [] ==> worker == Some(workers[old(nextWorkerIndex) % |workers|])
      ensures worker.Some? ==> worker.value in workers && nextWorkerIndex < |workers|
    {
      if |workers| == 0 {
        return None;
      }
      worker := Some(workers[nextWorkerIndex % |workers|]);
      nextWorkerIndex := (nextWorkerIndex + 1) % |workers|;
    }

    method HandleDied(worker: nat)
      modifies this`workers, this`spawning
      ensures St() == Step(old(St()), Died(worker))
    {
      workers := Without(workers, worker);
      spawning := spawning + 1;
    }

    /** A replacement under way comes to its end. */
    method SpawnReplacement(created: bool)
      requires spawning > 0
      modifies this
      ensures St() == Step(old(St()), if created then Spawned else SpawnFailed) && closed == old(closed)
    {
      spawning := spawning - 1;
      if created {
        var worker := CreateWorker();
        workers := workers + [worker];
      } else {
        failed := failed + 1;
      }
    }
  }
}
