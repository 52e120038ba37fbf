/** Start order of the services: Kahn's algorithm by levels over the in-degrees. */
module ServiceOrder {
  import opened Wrappers
  import opened Graphs

  /** Each present service with the dependency names it lists, repeats and absentees included. */
  type Services = Graph

  datatype Error = CyclicDependency

  // ---- what a level is ----------------------------------------------------

  /** The services whose present dependencies are all in `done`. */
  ghost function Startable(services: Services, done: set<string>): set<string> {
    set n | n in services && forall d | d in services[n] && d in services :: d in done
  }

  /** The services of the first `k` levels. */
  ghost function Done(services: Services, k: nat): set<string> {
    if k == 0 then {} else Startable(services, Done(services, k - 1))
  }

  lemma {:induction false} DoneGrows(services: Services, k: nat)
    ensures Done(services, k) <= Done(services, k + 1)
  {
    if k > 0 {
      DoneGrows(services, k - 1);
    }
  }

  /** A service is within the first `k` levels exactly when no dependency chain from it has more
      than `k` services. */
  lemma {:induction false} DoneMeansShortChains(services: Services, k: nat, p: seq<string>)
    requires Chain(services, p) && p[0] in Done(services, k)
    ensures |p| <= k
    decreases k
  {
    if |p| > 1 {
      assert Edge(services, p[0], p[1]);
      ChainSlice(services, p, 1, |p|);
      DoneMeansShortChains(services, k - 1, p[1..|p|]);
    }
  }

  lemma {:induction false} NotDoneMeansLongChain(services: Services, k: nat, n: string) returns (p: seq<string>)
    requires n in services && n !in Done(services, k)
    ensures Chain(services, p) && p[0] == n && |p| == k + 1
    decreases k
  {
    if k == 0 {
      p := [n];
    } else {
      var d :| d in services[n] && d in services && d !in Done(services, k - 1);
      var q := NotDoneMeansLongChain(services, k - 1, d);
      ChainPrepend(services, n, q);
      p := [n] + q;
    }
  }

  /** The services on a cycle are never done. */
  lemma {:induction false} CycleNeverDone(services: Services, p: seq<string>, k: nat, i: nat)
    requires Cycle(services, p) && i < |p|
    ensures p[i] !in Done(services, k)
    decreases k
  {
    if k > 0 {
      var j := if i + 1 < |p| then i + 1 else 1;
      CycleNeverDone(services, p, k - 1, j);
      assert Edge(services, p[j - 1], p[j]);
    }
  }

  /** When a level is empty, what is left over is stuck on a cycle; with no cycle nothing is. */
  lemma StuckExactlyOnCycles(services: Services, k: nat)
    requires Done(services, k + 1) == Done(services, k)
    ensures Done(services, k) == services.Keys <==> !Cyclic(services)
  {
    DoneInside(services, k);
    if Cyclic(services) {
      var p :| Cycle(services, p);
      CycleNeverDone(services, p, k, 0);
    } else if n :| n in services && n !in Done(services, k) {
      var m := if k >= |services| then k else |services|;
      DoneStays(services, k, m);
      var p := NotDoneMeansLongChain(services, m, n);
      LongChainIsCyclic(services, p);
    }
  }

  lemma DoneInside(services: Services, k: nat)
    ensures Done(services, k) <= services.Keys
  {}

  lemma {:induction false} DoneStays(services: Services, k: nat, m: nat)
    requires k <= m && Done(services, k + 1) == Done(services, k)
    ensures Done(services, m) == Done(services, k)
    decreases m
  {
    if m > k {
      DoneStays(services, k, m - 1);
    }
  }

  // ---- counting -----------------------------------------------------------

  /** How many entries of a dependency list name a service of `left`. */
  function CountIn(deps: seq<string>, left: set<string>): nat {
    if deps == [] then 0 else (if deps[0] in left then 1 else 0) + CountIn(deps[1..], left)
  }

  lemma {:induction false} CountInSnoc(deps: seq<string>, d: string, left: set<string>)
    ensures CountIn(deps + [d], left) == CountIn(deps, left) + (if d in left then 1 else 0)
  {
    if deps == [] {
      assert [d][1..] == [];
    } else {
      assert (deps + [d])[1..] == deps[1..] + [d];
      CountInSnoc(deps[1..], d, left);
    }
  }

  lemma {:induction false} CountInZero(deps: seq<string>, left: set<string>)
    ensures CountIn(deps, left) == 0 <==> forall d | d in deps :: d !in left
  {
    if deps != [] {
      CountInZero(deps[1..], left);
    }
  }

  lemma {:induction false} CountInSplit(deps: seq<string>, left: set<string>, d: string)
    requires d in left
    ensures CountIn(deps, left) == CountIn(deps, left - {d}) + multiset(deps)[d]
  {
    if deps != [] {
      CountInSplit(deps[1..], left, d);
      assert deps == [deps[0]] + deps[1..];
    }
  }

  // ---- the graph ----------------------------------------------------------

  ghost predicate InDegrees(services: Services, inDegree: map<string, int>, left: set<string>) {
    inDegree.Keys == services.Keys && forall n | n in services :: inDegree[n] == CountIn(services[n], left)
  }

  function ListOf(dependents: map<string, seq<string>>, name: string): seq<string> {
    if name in dependents then dependents[name] else []
  }

  function Entries(services: Services, recorded: set<string>, d: string, n: string): nat {
    if d in services && n in services && n in recorded then multiset(services[n])[d] else 0
  }

  /** Each entry of the recorded services is listed once, on the dependency it names. */
  ghost predicate Mirrors(services: Services, dependents: map<string, seq<string>>, recorded: set<string>) {
    forall d, n :: CountOf(dependents, d, n) == Entries(services, recorded, d, n)
  }

  method Zeros(names: set<string>) returns (counts: map<string, int>)
    ensures counts.Keys == names && forall n | n in names :: counts[n] == 0
  {
    counts := map[];
    var remaining := names;
    while remaining != {}
      invariant remaining <= names && counts.Keys == names - remaining
      invariant forall n | n in counts :: counts[n] == 0
    {
      var name :| name in remaining;
      counts := counts[name := 0];
      remaining := remaining - {name};
    }
  }

  method BuildDepGraph(services: Services)
    returns (inDegree: map<string, int>, dependents: map<string, seq<string>>)
    ensures InDegrees(services, inDegree, services.Keys)
    ensures Mirrors(services, dependents, services.Keys)
  {
    inDegree := Zeros(services.Keys);
    dependents := map[];
    var remaining := services.Keys;
    while remaining != {}
      invariant remaining <= services.Keys && inDegree.Keys == services.Keys
      invariant forall n | n in services ::
                  inDegree[n] == if n in remaining then 0 else CountIn(services[n], services.Keys)
      invariant Mirrors(services, dependents, services.Keys - remaining)
    {
      var name :| name in remaining;
      inDegree, dependents := AddDependencies(services, name, inDegree, dependents, services.Keys - remaining);
      assert services.Keys - remaining + {name} == services.Keys - (remaining - {name});
      remaining := remaining - {name};
    }
    assert services.Keys - {} == services.Keys;
  }

  function Record(dependents: map<string, seq<string>>, d: string, name: string): map<string, seq<string>> {
    dependents[d := ListOf(dependents, d) + [name]]
  }

  function CountOf(dependents: map<string, seq<string>>, d: string, n: string): nat {
    multiset(ListOf(dependents, d))[n]
  }

  lemma RecordCounts(dependents: map<string, seq<string>>, d: string, name: string, e: string, n: string)
    ensures CountOf(Record(dependents, d, name), e, n)
         == CountOf(dependents, e, n) + (if e == d && n == name then 1 else 0)
  {}

  /** One service's dependency names, the absent ones skipped. */
  method AddDependencies(services: Services, name: string, inDegree0: map<string, int>,
                         dependents0: map<string, seq<string>>, ghost recorded: set<string>)
    returns (inDegree: map<string, int>, dependents: map<string, seq<string>>)
    requires name in services && name in inDegree0 && name !in recorded
    requires inDegree0[name] == 0 && Mirrors(services, dependents0, recorded)
    ensures inDegree == inDegree0[name := CountIn(services[name], services.Keys)]
    ensures Mirrors(services, dependents, recorded + {name})
  {
    inDegree, dependents := inDegree0, dependents0;
    var deps := services[name];
    assert inDegree0[name := 0] == inDegree0;
    assert AddedSoFar(services, name, dependents0, dependents, []);
    for i := 0 to |deps|
      invariant inDegree == inDegree0[name := CountIn(deps[..i], services.Keys)]
      invariant AddedSoFar(services, name, dependents0, dependents, deps[..i])
    {
      var depName := deps[i];
      Prefix(deps, i);
      CountInSnoc(deps[..i], depName, services.Keys);
      AddStep(services, name, dependents0, dependents, deps[..i], depName);
      if depName !in services {
        continue;
      }
      inDegree := inDegree[name := inDegree[name] + 1];
      dependents := Record(dependents, depName, name);
    }
    assert deps[..|deps|] == deps;
    AllAdded(services, name, dependents0, dependents, recorded);
  }

  lemma AllAdded(services: Services, name: string, before: map<string, seq<string>>,
                 now: map<string, seq<string>>, recorded: set<string>)
    requires name in services && name !in recorded && Mirrors(services, before, recorded)
    requires AddedSoFar(services, name, before, now, services[name])
    ensures Mirrors(services, now, recorded + {name})
  {
    forall d, n
      ensures CountOf(now, d, n) == Entries(services, recorded + {name}, d, n)
    {
      assert CountOf(before, d, n) == Entries(services, recorded, d, n);
    }
  }

  lemma Prefix(s: seq<string>, i: nat)
    requires i < |s|
    ensures s[..i + 1] == s[..i] + [s[i]]
  {}

  ghost predicate AddedSoFar(services: Services, name: string, before: map<string, seq<string>>,
                             now: map<string, seq<string>>, deps: seq<string>)
  {
    forall d, n :: CountOf(now, d, n) == CountOf(before, d, n) + NewEntries(services, name, deps, d, n)
  }

  lemma AddStep(services: Services, name: string, before: map<string, seq<string>>,
                now: map<string, seq<string>>, deps: seq<string>, depName: string)
    requires AddedSoFar(services, name, before, now, deps)
    ensures var next := if depName in services then Record(now, depName, name) else now;
            AddedSoFar(services, name, before, next, deps + [depName])
  {
    var next := if depName in services then Record(now, depName, name) else now;
    forall d, n
      ensures CountOf(next, d, n) == CountOf(before, d, n) + NewEntries(services, name, deps + [depName], d, n)
    {
      RecordCounts(now, depName, name, d, n);
    }
  }

  function NewEntries(services: Services, name: string, deps: seq<string>, d: string, n: string): nat {
    if n == name && d in services then multiset(deps)[d] else 0
  }

  // ---- the levels ---------------------------------------------------------

  ghost function Elements(s: seq<string>): set<string> {
    set x | x in s
  }

  ghost predicate Distinct(s: seq<string>) {
    forall i, j | 0 <= i < j < |s| :: s[i] != s[j]
  }

  /** Group `g` holds each service of level `g` once. */
  ghost predicate AreLevels(services: Services, groups: seq<seq<string>>) {
    forall g | 0 <= g < |groups| ::
      groups[g] != [] && IsLevel(services, groups[g], g)
  }

  /** Holds each service of level `k` once. */
  ghost predicate IsLevel(services: Services, queue: seq<string>, k: nat) {
    Distinct(queue) && Elements(queue) == Done(services, k + 1) - Done(services, k)
  }

  lemma DistinctSize(s: seq<string>)
    requires Distinct(s)
    ensures |Elements(s)| == |s|
    decreases |s|
  {
    if s != [] {
      DistinctSize(s[1..]);
      assert s == [s[0]] + s[1..];
      assert Elements(s) == {s[0]} + Elements(s[1..]);
      assert s[0] !in Elements(s[1..]);
    }
  }

  /** What is left to start after `k` levels. */
  ghost function Left(services: Services, k: nat): set<string> {
    services.Keys - Done(services, k)
  }

  /** The services no longer waiting that were still waiting when the level began. */
  ghost predicate NewlyFree(services: Services, inDegree: map<string, int>, k: nat, queue: seq<string>)
    requires inDegree.Keys == services.Keys
  {
    && Distinct(queue)
    && forall n :: n in queue <==> n in services && inDegree[n] == 0 && n !in Done(services, k + 1)
  }

  lemma ZeroMeansStartable(services: Services, n: string, k: nat)
    requires n in services
    ensures CountIn(services[n], Left(services, k)) == 0 <==> n in Done(services, k + 1)
  {
    CountInZero(services[n], Left(services, k));
  }

  /** Who waits for a service, how often, and that it is no service already free. */
  lemma WaitingCounts(services: Services, name: string, dependents: map<string, seq<string>>, left: set<string>, k: nat)
    requires name in left && left <= Left(services, k) && Mirrors(services, dependents, services.Keys)
    ensures var waiting := ListOf(dependents, name);
            && (forall n | n in services ::
                  CountIn(services[n], left) == CountIn(services[n], left - {name}) + multiset(waiting)[n])
            && forall i | 0 <= i < |waiting| :: waiting[i] in services && waiting[i] !in Done(services, k + 1)
  {
    var waiting := ListOf(dependents, name);
    forall n | n in services
      ensures CountIn(services[n], left) == CountIn(services[n], left - {name}) + multiset(waiting)[n]
    {
      CountInSplit(services[n], left, name);
      assert CountOf(dependents, name, n) == Entries(services, services.Keys, name, n);
    }
    forall n | n in waiting
      ensures n in services && n !in Done(services, k + 1)
    {
      assert CountOf(dependents, name, n) == Entries(services, services.Keys, name, n);
      assert n in multiset(waiting);
      assert multiset(services[n])[name] > 0;
      assert name in services[n] && name !in Done(services, k);
    }
  }

  /** Takes one finished service off the in-degrees of those that depend on it. */
  method ReleaseDependents(services: Services, name: string, inDegree0: map<string, int>,
                           dependents: map<string, seq<string>>, queue: seq<string>,
                           ghost left: set<string>, ghost k: nat)
    returns (inDegree: map<string, int>, nextQueue: seq<string>)
    requires name in left && left <= Left(services, k)
    requires InDegrees(services, inDegree0, left) && Mirrors(services, dependents, services.Keys)
    requires NewlyFree(services, inDegree0, k, queue)
    ensures InDegrees(services, inDegree, left - {name})
    ensures NewlyFree(services, inDegree, k, nextQueue)
  {
    inDegree, nextQueue := inDegree0, queue;
    var waiting := ListOf(dependents, name);
    WaitingCounts(services, name, dependents, left, k);
    assert Releasing(services, inDegree, left - {name}, waiting);
    assert waiting[0..] == waiting;
    for j := 0 to |waiting|
      invariant Releasing(services, inDegree, left - {name}, waiting[j..])
      invariant NewlyFree(services, inDegree, k, nextQueue)
    {
      Suffix(waiting, j);
      inDegree, nextQueue := ReleaseOne(services, waiting[j], inDegree, nextQueue, left - {name}, waiting[j + 1..], k);
    }
    assert waiting[|waiting|..] == [];
    assert Releasing(services, inDegree, left - {name}, []);
  }

  lemma Suffix(s: seq<string>, i: nat)
    requires i < |s|
    ensures s[i..] == [s[i]] + s[i + 1..]
  {}

  method ReleaseOne(services: Services, dep: string, inDegree0: map<string, int>, queue: seq<string>,
                    ghost left: set<string>, ghost toCome: seq<string>, ghost k: nat)
    returns (inDegree: map<string, int>, nextQueue: seq<string>)
    requires dep in services && dep !in Done(services, k + 1)
    requires Releasing(services, inDegree0, left, [dep] + toCome) && NewlyFree(services, inDegree0, k, queue)
    ensures Releasing(services, inDegree, left, toCome) && NewlyFree(services, inDegree, k, nextQueue)
  {
    ReleaseStep(services, inDegree0, left, dep, toCome);
    FreeStep(services, inDegree0, k, queue, dep);
    inDegree, nextQueue := inDegree0[dep := inDegree0[dep] - 1], queue;
    if inDegree[dep] == 0 {
      nextQueue := nextQueue + [dep];
    }
  }

  lemma FreeStep(services: Services, inDegree: map<string, int>, k: nat, queue: seq<string>, dep: string)
    requires inDegree.Keys == services.Keys && NewlyFree(services, inDegree, k, queue)
    requires dep in services && inDegree[dep] > 0 && dep !in Done(services, k + 1)
    ensures NewlyFree(services, inDegree[dep := inDegree[dep] - 1], k,
                      if inDegree[dep] == 1 then queue + [dep] else queue)
  {
    assert dep !in queue;
  }

  /** Mid-release: the in-degrees still count the releases to come. */
  ghost predicate Releasing(services: Services, inDegree: map<string, int>, left: set<string>, toCome: seq<string>) {
    && inDegree.Keys == services.Keys
    && forall n | n in services :: inDegree[n] == CountIn(services[n], left) + multiset(toCome)[n]
  }

  lemma ReleaseStep(services: Services, inDegree: map<string, int>, left: set<string>, dep: string, toCome: seq<string>)
    requires Releasing(services, inDegree, left, [dep] + toCome) && dep in services
    ensures inDegree[dep] > 0
    ensures Releasing(services, inDegree[dep := inDegree[dep] - 1], left, toCome)
  {}

  /** One level: every service of the queue is started, and the next queue is what that frees. */
  method NextLevel(services: Services, inDegree0: map<string, int>, dependents: map<string, seq<string>>,
                   queue: seq<string>, ghost k: nat)
    returns (inDegree: map<string, int>, nextQueue: seq<string>)
    requires InDegrees(services, inDegree0, Left(services, k)) && Mirrors(services, dependents, services.Keys)
    requires IsLevel(services, queue, k)
    ensures InDegrees(services, inDegree, Left(services, k + 1))
    ensures IsLevel(services, nextQueue, k + 1)
  {
    inDegree, nextQueue := inDegree0, [];
    ghost var left := Left(services, k);
    LevelStarts(services, inDegree, k);
    LevelMembers(services, k);
    for i := 0 to |queue|
      invariant left == Left(services, k) - Elements(queue[..i])
      invariant InDegrees(services, inDegree, left)
      invariant NewlyFree(services, inDegree, k, nextQueue)
    {
      assert queue[i] in Elements(queue);
      assert Elements(queue[..i + 1]) == Elements(queue[..i]) + {queue[i]};
      inDegree, nextQueue := ReleaseDependents(services, queue[i], inDegree, dependents, nextQueue, left, k);
      left := left - {queue[i]};
    }
    assert queue[..|queue|] == queue;
    assert left == Left(services, k + 1);
    LevelEnds(services, inDegree, k, nextQueue);
  }

  lemma LevelMembers(services: Services, k: nat)
    ensures Done(services, k) <= Done(services, k + 1) <= services.Keys
  {
    DoneGrows(services, k);
    DoneInside(services, k + 1);
  }

  lemma LevelStarts(services: Services, inDegree: map<string, int>, k: nat)
    requires InDegrees(services, inDegree, Left(services, k))
    ensures NewlyFree(services, inDegree, k, [])
  {
    forall n | n in services
      ensures inDegree[n] == 0 <==> n in Done(services, k + 1)
    {
      ZeroMeansStartable(services, n, k);
    }
  }

  lemma LevelEnds(services: Services, inDegree: map<string, int>, k: nat, queue: seq<string>)
    requires InDegrees(services, inDegree, Left(services, k + 1)) && NewlyFree(services, inDegree, k, queue)
    ensures Elements(queue) == Done(services, k + 2) - Done(services, k + 1)
  {
    DoneInside(services, k + 2);
    forall n | n in services
      ensures inDegree[n] == 0 <==> n in Done(services, k + 2)
    {
      ZeroMeansStartable(services, n, k + 1);
    }
  }

  /** Between two levels: what has been started, what each service still waits for, and what comes next. */
  ghost predicate Sorting(services: Services, groups: seq<seq<string>>, processed: int,
                          inDegree: map<string, int>, queue: seq<string>)
  {
    && AreLevels(services, groups) && processed == |Done(services, |groups|)|
    && InDegrees(services, inDegree, Left(services, |groups|))
    && IsLevel(services, queue, |groups|)
  }

  lemma SortingStarts(services: Services, inDegree: map<string, int>, queue: seq<string>)
    requires InDegrees(services, inDegree, services.Keys) && IsLevel(services, queue, 0)
    ensures Sorting(services, [], 0, inDegree, queue)
  {
    assert Left(services, 0) == services.Keys;
  }

  lemma SortingGoesOn(services: Services, groups: seq<seq<string>>, processed: int, inDegree: map<string, int>,
                      queue: seq<string>, nextInDegree: map<string, int>, nextQueue: seq<string>)
    requires Sorting(services, groups, processed, inDegree, queue) && queue != []
    requires InDegrees(services, nextInDegree, Left(services, |groups| + 1))
    requires IsLevel(services, nextQueue, |groups| + 1)
    ensures Sorting(services, groups + [queue], processed + |queue|, nextInDegree, nextQueue)
    ensures processed < processed + |queue| <= |services|
  {
    LevelSize(services, queue, |groups|);
  }

  lemma SortingEnds(services: Services, groups: seq<seq<string>>, processed: int, inDegree: map<string, int>)
    requires Sorting(services, groups, processed, inDegree, [])
    ensures processed == |services| <==> !Cyclic(services)
    ensures processed == |services| ==> AreLevels(services, groups) && Done(services, |groups|) == services.Keys
  {
    QueueDrained(services, [], |groups|);
    AllDoneByCount(services, |groups|);
  }

  method TopoSort(services: Services, inDegree0: map<string, int>, dependents: map<string, seq<string>>)
    returns (r: Result<seq<seq<string>>, Error>)
    requires InDegrees(services, inDegree0, services.Keys) && Mirrors(services, dependents, services.Keys)
    ensures r.Ok? <==> !Cyclic(services)
    ensures r.Ok? ==> AreLevels(services, r.value) && Done(services, |r.value|) == services.Keys
  {
    var inDegree := inDegree0;
    var groups: seq<seq<string>> := [];
    var processed := 0;
    var queue := Sources(services, inDegree);
    SortingStarts(services, inDegree, queue);
    while |queue| > 0
      invariant Sorting(services, groups, processed, inDegree, queue)
      decreases |services| - processed
    {
      var nextDegree, nextQueue := NextLevel(services, inDegree, dependents, queue, |groups|);
      SortingGoesOn(services, groups, processed, inDegree, queue, nextDegree, nextQueue);
      groups := groups + [queue];
      processed := processed + |queue|;
      inDegree, queue := nextDegree, nextQueue;
    }
    SortingEnds(services, groups, processed, inDegree);
    if processed != |services| {
      return Err(CyclicDependency);
    }
    return Ok(groups);
  }

  lemma QueueDrained(services: Services, queue: seq<string>, k: nat)
    requires queue == [] && Elements(queue) == Done(services, k + 1) - Done(services, k)
    ensures Done(services, k) == services.Keys <==> !Cyclic(services)
  {
    DoneGrows(services, k);
    assert Elements(queue) == {};
    assert Done(services, k + 1) == Done(services, k) + Elements(queue);
    StuckExactlyOnCycles(services, k);
  }

  lemma AllDoneByCount(services: Services, k: nat)
    ensures |Done(services, k)| == |services| <==> Done(services, k) == services.Keys
    ensures |Done(services, k)| <= |services|
  {
    DoneInside(services, k);
    assert services.Keys == Done(services, k) + Left(services, k);
    assert |services.Keys| == |Done(services, k)| + |Left(services, k)|;
  }

  lemma LevelSize(services: Services, queue: seq<string>, k: nat)
    requires IsLevel(services, queue, k)
    ensures |Done(services, k + 1)| == |Done(services, k)| + |queue| <= |services|
  {
    DoneGrows(services, k);
    DistinctSize(queue);
    AllDoneByCount(services, k + 1);
    assert Done(services, k + 1) == Done(services, k) + Elements(queue);
  }

  /** The services that wait for nothing, in any order. */
  method Sources(services: Services, inDegree: map<string, int>) returns (queue: seq<string>)
    requires InDegrees(services, inDegree, services.Keys)
    ensures Distinct(queue) && Elements(queue) == Done(services, 1) - Done(services, 0)
  {
    queue := [];
    var remaining := inDegree.Keys;
    while remaining != {}
      invariant remaining <= inDegree.Keys && Distinct(queue)
      invariant forall n :: n in queue <==> n in inDegree && n !in remaining && inDegree[n] == 0
    {
      var name :| name in remaining;
      remaining := remaining - {name};
      if inDegree[name] != 0 {
        continue;
      }
      queue := queue + [name];
    }
    assert Left(services, 0) == services.Keys;
    forall n | n in services
      ensures inDegree[n] == 0 <==> n in Done(services, 1)
    {
      ZeroMeansStartable(services, n, 0);
    }
    DoneInside(services, 1);
  }

  /** Ordering succeeds exactly when the dependency graph over the present services has no cycle. */
  method ResolveOrder(services: Services) returns (r: Result<seq<seq<string>>, Error>)
    ensures r.Ok? <==> !Cyclic(services)
    ensures r.Ok? ==> AreLevels(services, r.value) && Done(services, |r.value|) == services.Keys
  {
    var inDegree, dependents := BuildDepGraph(services);
    r := TopoSort(services, inDegree, dependents);
  }

  // ---- what the groups promise --------------------------------------------

  lemma {:induction false} DoneMonotone(services: Services, j: nat, k: nat)
    requires j <= k
    ensures Done(services, j) <= Done(services, k)
    decreases k
  {
    if j < k {
      DoneMonotone(services, j, k - 1);
      DoneGrows(services, k - 1);
    }
  }

  lemma LevelOf(services: Services, groups: seq<seq<string>>, g: nat, n: string)
    requires AreLevels(services, groups) && g < |groups| && n in groups[g]
    ensures n in services && n in Done(services, g + 1) && n !in Done(services, g)
  {
    DoneInside(services, g + 1);
    assert n in Elements(groups[g]);
  }

  lemma {:induction false} SomeGroup(services: Services, groups: seq<seq<string>>, n: string, k: nat) returns (g: nat)
    requires AreLevels(services, groups) && k <= |groups| && n in Done(services, k)
    ensures g < k && n in groups[g]
    decreases k
  {
    if n in Done(services, k - 1) {
      g := SomeGroup(services, groups, n, k - 1);
    } else {
      g := k - 1;
      assert n in Elements(groups[g]);
    }
  }

  /** Each service is in exactly one group, at exactly one place. */
  lemma EveryServiceOnce(services: Services, groups: seq<seq<string>>, n: string)
    requires AreLevels(services, groups) && Done(services, |groups|) == services.Keys && n in services
    ensures exists g, i :: 0 <= g < |groups| && 0 <= i < |groups[g]| && groups[g][i] == n
    ensures forall g, i, h, j | 0 <= g < |groups| && 0 <= i < |groups[g]| && groups[g][i] == n
                             && 0 <= h < |groups| && 0 <= j < |groups[h]| && groups[h][j] == n :: g == h && i == j
  {
    var g := SomeGroup(services, groups, n, |groups|);
    var i :| 0 <= i < |groups[g]| && groups[g][i] == n;
    forall h | 0 <= h < |groups| && n in groups[h]
      ensures h == g
    {
      LevelOf(services, groups, h, n);
      LevelOf(services, groups, g, n);
      if h < g {
        DoneMonotone(services, h + 1, g);
      } else if g < h {
        DoneMonotone(services, g + 1, h);
      }
    }
  }

  /** Every present dependency of a service is in a strictly earlier group. */
  lemma DependenciesComeFirst(services: Services, groups: seq<seq<string>>, g: nat, n: string, d: string)
    returns (h: nat)
    requires AreLevels(services, groups) && g < |groups| && n in groups[g]
    requires n in services && d in services && d in services[n]
    ensures h < g && d in groups[h]
  {
    LevelOf(services, groups, g, n);
    h := SomeGroup(services, groups, d, g);
  }

  /** The group of a service is the length of its longest dependency chain. */
  lemma GroupIsLongestChain(services: Services, groups: seq<seq<string>>, g: nat, n: string)
    requires AreLevels(services, groups) && g < |groups| && n in groups[g]
    ensures exists p :: Chain(services, p) && p[0] == n && |p| - 1 == g
    ensures forall p | Chain(services, p) && p[0] == n :: |p| - 1 <= g
  {
    LevelOf(services, groups, g, n);
    var q := NotDoneMeansLongChain(services, g, n);
    forall p | Chain(services, p) && p[0] == n
      ensures |p| - 1 <= g
    {
      DoneMeansShortChains(services, g + 1, p);
    }
  }

  /** Repeating a dependency name, or naming an absent service, changes no level. */
  lemma {:induction false} OnlyPresentNamesMatter(a: Services, b: Services, k: nat)
    requires a.Keys == b.Keys
    requires forall n, d | n in a && d in a :: d in a[n] <==> d in b[n]
    ensures Done(a, k) == Done(b, k)
  {
    if k > 0 {
      OnlyPresentNamesMatter(a, b, k - 1);
    }
  }
}
