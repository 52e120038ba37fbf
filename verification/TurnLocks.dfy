/** The reference-counted lock that lets one turn of a chat run at a time. Every mutex section and
    every channel operation is one step; any number of goroutines take steps in any order, and a
    goroutine waiting for the lock may be cancelled at any point. */
module TurnLocks {
  import opened Collections

  /** A lock's channel has room for one token. */
  datatype Lock = Lock(refs: int, token: bool)

  /** The process-wide registry, and every lock ever made. */
  datatype Registry = Registry(entries: map<string, nat>, locks: seq<Lock>)

  datatype Pc = Waiting | GotToken | Holding | Sending | Releasing

  /** A call of `lockChatTurn`, from its first mutex section until it has given its reference back. */
  datatype Process = Process(chat: string, lock: nat, pc: Pc)

  datatype World = World(shared: Registry, procs: map<nat, Process>)

  datatype Event =
    | Enter(p: nat, chat: string)
    | Cancel(p: nat)
    | Take(p: nat)
    | Proceed(p: nat)
    | BackOut(p: nat)
    | Unlock(p: nat)
    | Send(p: nat)
    | Release(p: nat)

  const START := World(Registry(map[], []), map[])

  // ---- steps --------------------------------------------------------------

  function LockFor(r: Registry, chat: string): nat {
    if chat in r.entries then r.entries[chat] else |r.locks|
  }

  ghost predicate WellFormed(r: Registry) {
    forall chat | chat in r.entries :: r.entries[chat] < |r.locks|
  }

  function Joined(r: Registry, chat: string): Registry
    requires WellFormed(r)
  {
    if chat in r.entries then
      var l := r.entries[chat];
      r.(locks := r.locks[l := r.locks[l].(refs := r.locks[l].refs + 1)])
    else
      Registry(r.entries[chat := |r.locks|], r.locks + [Lock(1, true)])
  }

  function Dropped(r: Registry, chat: string, l: nat): Registry
    requires l < |r.locks|
  {
    var refs := r.locks[l].refs - 1;
    Registry(if refs == 0 then r.entries - {chat} else r.entries, r.locks[l := r.locks[l].(refs := refs)])
  }

  function WithToken(r: Registry, l: nat, token: bool): Registry
    requires l < |r.locks|
  {
    r.(locks := r.locks[l := r.locks[l].(token := token)])
  }

  ghost predicate Enabled(w: World, e: Event) {
    match e
    case Enter(p, _) => p !in w.procs && WellFormed(w.shared)
    case Cancel(p) => At(w, p, Waiting)
    case Take(p) => At(w, p, Waiting) && w.shared.locks[w.procs[p].lock].token
    case Proceed(p) => At(w, p, GotToken)
    case BackOut(p) => At(w, p, GotToken)
    case Unlock(p) => At(w, p, Holding)
    case Send(p) => At(w, p, Sending) && !w.shared.locks[w.procs[p].lock].token
    case Release(p) => At(w, p, Releasing)
  }

  predicate At(w: World, p: nat, pc: Pc) {
    p in w.procs && w.procs[p].pc == pc && w.procs[p].lock < |w.shared.locks|
  }

  function Moved(w: World, p: nat, pc: Pc): map<nat, Process>
    requires p in w.procs
  {
    w.procs[p := w.procs[p].(pc := pc)]
  }

  ghost function Step(w: World, e: Event): World
    requires Enabled(w, e)
  {
    match e
    case Enter(p, chat) =>
      World(Joined(w.shared, chat), w.procs[p := Process(chat, LockFor(w.shared, chat), Waiting)])
    case Cancel(p) => World(w.shared, Moved(w, p, Releasing))
    case Take(p) => World(WithToken(w.shared, w.procs[p].lock, false), Moved(w, p, GotToken))
    case Proceed(p) => World(w.shared, Moved(w, p, Holding))
    case BackOut(p) => World(w.shared, Moved(w, p, Sending))
    case Unlock(p) => World(w.shared, Moved(w, p, Sending))
    case Send(p) => World(WithToken(w.shared, w.procs[p].lock, true), Moved(w, p, Releasing))
    case Release(p) => World(Dropped(w.shared, w.procs[p].chat, w.procs[p].lock), w.procs - {p})
  }

  /** Some sequence of steps leads from one world to the other. */
  ghost predicate Leads(from: World, events: seq<Event>, to: World)
    decreases events
  {
    if events == [] then from == to
    else Enabled(from, events[0]) && Leads(Step(from, events[0]), events[1..], to)
  }

  // ---- what every step keeps ----------------------------------------------

  predicate HasToken(pc: Pc) {
    pc.GotToken? || pc.Holding? || pc.Sending?
  }

  function Users(procs: map<nat, Process>, l: nat): set<nat> {
    set p | p in procs && procs[p].lock == l
  }

  function Owners(procs: map<nat, Process>, l: nat): set<nat> {
    set p | p in procs && procs[p].lock == l && HasToken(procs[p].pc)
  }

  /** A lock counts its users, and its token is in the channel or with exactly one of them. */
  ghost predicate Balanced(w: World, l: nat)
    requires l < |w.shared.locks|
  {
    && w.shared.locks[l].refs == |Users(w.procs, l)|
    && (if w.shared.locks[l].token then 0 else 1) == |Owners(w.procs, l)|
  }

  ghost predicate Inv(w: World) {
    && WellFormed(w.shared)
    && (forall l | 0 <= l < |w.shared.locks| :: Balanced(w, l))
    && (forall p | p in w.procs :: p in w.procs && Registered(w.shared, w.procs[p]))
    && (forall chat | chat in w.shared.entries :: w.shared.locks[w.shared.entries[chat]].refs > 0)
    && EntriesDiffer(w.shared)
  }

  /** A goroutine's lock is the one registered for its chat. */
  predicate Registered(r: Registry, process: Process) {
    process.chat in r.entries && r.entries[process.chat] == process.lock
  }

  lemma Owner(procs: map<nat, Process>, l: nat, p: nat)
    requires p in Owners(procs, l) && |Owners(procs, l)| <= 1
    ensures forall q | q in Owners(procs, l) :: q == p
  {
    forall q | q in Owners(procs, l)
      ensures q == p
    {
      if q != p {
        assert {p, q} <= Owners(procs, l);
        SubsetSize({p, q}, Owners(procs, l));
      }
    }
  }

  function Count(b: bool): nat {
    if b then 1 else 0
  }

  predicate Uses(procs: map<nat, Process>, l: nat, p: nat) {
    p in procs && procs[p].lock == l
  }

  predicate Owns(procs: map<nat, Process>, l: nat, p: nat) {
    Uses(procs, l, p) && HasToken(procs[p].pc)
  }

  lemma CountChange(before: set<nat>, after: set<nat>, p: nat)
    requires forall q | q != p :: q in before <==> q in after
    ensures |after| == |before| - Count(p in before) + Count(p in after)
  {
    var rest := before - {p};
    assert rest == after - {p};
    assert |before| == |rest| + Count(p in before);
    assert |after| == |rest| + Count(p in after);
  }

  /** How the counts of a lock change when one goroutine does. */
  lemma CountsAfter(procs: map<nat, Process>, p: nat, process: Process, l: nat)
    ensures |Users(procs[p := process], l)| == |Users(procs, l)| - Count(Uses(procs, l, p)) + Count(process.lock == l)
    ensures |Owners(procs[p := process], l)|
         == |Owners(procs, l)| - Count(Owns(procs, l, p)) + Count(process.lock == l && HasToken(process.pc))
  {
    CountChange(Users(procs, l), Users(procs[p := process], l), p);
    CountChange(Owners(procs, l), Owners(procs[p := process], l), p);
  }

  lemma CountsWithout(procs: map<nat, Process>, p: nat, l: nat)
    ensures |Users(procs - {p}, l)| == |Users(procs, l)| - Count(Uses(procs, l, p))
    ensures |Owners(procs - {p}, l)| == |Owners(procs, l)| - Count(Owns(procs, l, p))
  {
    CountChange(Users(procs, l), Users(procs - {p}, l), p);
    CountChange(Owners(procs, l), Owners(procs - {p}, l), p);
  }

  lemma AllRegistered(w: World, p: nat)
    requires Inv(w) && p in w.procs
    ensures Registered(w.shared, w.procs[p]) && w.procs[p].lock < |w.shared.locks| && Balanced(w, w.procs[p].lock)
  {}

  lemma EnterKeeps(w: World, p: nat, chat: string)
    requires Inv(w) && p !in w.procs
    ensures Inv(Step(w, Enter(p, chat)))
  {
    var next := Step(w, Enter(p, chat));
    var lock := LockFor(w.shared, chat);
    NoUsersYet(w, |w.shared.locks|);
    forall l | 0 <= l < |next.shared.locks|
      ensures Balanced(next, l)
    {
      CountsAfter(w.procs, p, Process(chat, lock, Waiting), l);
      assert l < |w.shared.locks| ==> Balanced(w, l);
    }
    forall q | q in next.procs
      ensures Registered(next.shared, next.procs[q])
    {
      if q != p {
        AllRegistered(w, q);
      }
    }
    EntriesAfterEnter(w.shared, chat);
  }

  ghost predicate EntriesDiffer(r: Registry) {
    forall a, b | a in r.entries && b in r.entries && a != b :: r.entries[a] != r.entries[b]
  }

  lemma EntriesAfterEnter(r: Registry, chat: string)
    requires WellFormed(r) && EntriesDiffer(r)
    requires forall c | c in r.entries :: r.locks[r.entries[c]].refs > 0
    ensures WellFormed(Joined(r, chat)) && EntriesDiffer(Joined(r, chat))
    ensures forall c | c in Joined(r, chat).entries :: Joined(r, chat).locks[Joined(r, chat).entries[c]].refs > 0
  {}

  lemma NoUsersYet(w: World, l: nat)
    requires Inv(w) && l >= |w.shared.locks|
    ensures Users(w.procs, l) == {} && Owners(w.procs, l) == {}
  {
    forall p | p in w.procs
      ensures w.procs[p].lock < l
    {
      AllRegistered(w, p);
    }
  }

  lemma MoveKeeps(w: World, p: nat, pc: Pc)
    requires Inv(w) && p in w.procs && HasToken(w.procs[p].pc) == HasToken(pc)
    ensures Inv(World(w.shared, Moved(w, p, pc)))
  {
    var next := World(w.shared, Moved(w, p, pc));
    forall l | 0 <= l < |next.shared.locks|
      ensures Balanced(next, l)
    {
      CountsAfter(w.procs, p, w.procs[p].(pc := pc), l);
      assert Balanced(w, l);
    }
    AllRegistered(w, p);
  }

  lemma TokenMoveKeeps(w: World, p: nat, token: bool, pc: Pc)
    requires Inv(w) && p in w.procs && w.procs[p].lock < |w.shared.locks|
    requires HasToken(w.procs[p].pc) == token && HasToken(pc) == !token
    requires w.shared.locks[w.procs[p].lock].token == !token
    ensures Inv(World(WithToken(w.shared, w.procs[p].lock, token), Moved(w, p, pc)))
  {
    var next := World(WithToken(w.shared, w.procs[p].lock, token), Moved(w, p, pc));
    forall l | 0 <= l < |next.shared.locks|
      ensures Balanced(next, l)
    {
      CountsAfter(w.procs, p, w.procs[p].(pc := pc), l);
      assert Balanced(w, l);
    }
    AllRegistered(w, p);
  }

  lemma ReleaseKeeps(w: World, p: nat)
    requires Inv(w) && At(w, p, Releasing)
    ensures Inv(Step(w, Release(p)))
  {
    var next := Step(w, Release(p));
    AllRegistered(w, p);
    forall l | 0 <= l < |next.shared.locks|
      ensures Balanced(next, l)
    {
      CountsWithout(w.procs, p, l);
      assert Balanced(w, l);
    }
    forall q | q in next.procs
      ensures Registered(next.shared, next.procs[q])
    {
      AllRegistered(w, q);
      if w.procs[q].chat == w.procs[p].chat {
        StillUsed(next, q);
      }
    }
  }

  lemma StillUsed(w: World, q: nat)
    requires q in w.procs && w.procs[q].lock < |w.shared.locks| && Balanced(w, w.procs[q].lock)
    ensures w.shared.locks[w.procs[q].lock].refs > 0
  {
    assert q in Users(w.procs, w.procs[q].lock);
  }

  lemma StepKeeps(w: World, e: Event)
    requires Inv(w) && Enabled(w, e)
    ensures Inv(Step(w, e))
  {
    match e
    case Enter(p, chat) => EnterKeeps(w, p, chat);
    case Cancel(p) => MoveKeeps(w, p, Releasing);
    case Take(p) => TokenMoveKeeps(w, p, false, GotToken);
    case Proceed(p) => MoveKeeps(w, p, Holding);
    case BackOut(p) => MoveKeeps(w, p, Sending);
    case Unlock(p) => MoveKeeps(w, p, Sending);
    case Send(p) => TokenMoveKeeps(w, p, true, Releasing);
    case Release(p) => ReleaseKeeps(w, p);
  }

  lemma {:induction false} RunKeeps(from: World, events: seq<Event>, to: World)
    requires Inv(from) && Leads(from, events, to)
    ensures Inv(to)
    decreases |events|
  {
    if events != [] {
      StepKeeps(from, events[0]);
      RunKeeps(Step(from, events[0]), events[1..], to);
    }
  }

  // ---- what holds in every reachable world --------------------------------

  ghost predicate Reachable(w: World) {
    exists events :: Leads(START, events, w)
  }

  lemma ReachableIsGood(w: World)
    requires Reachable(w)
    ensures Inv(w)
  {
    var events :| Leads(START, events, w);
    RunKeeps(START, events, w);
  }

  /** At most one goroutine has a chat's turn, even when the chat's entry was deleted and made anew. */
  lemma OneHolderPerChat(w: World, p: nat, q: nat)
    requires Reachable(w) && p in w.procs && q in w.procs
    requires HasToken(w.procs[p].pc) && HasToken(w.procs[q].pc) && w.procs[p].chat == w.procs[q].chat
    ensures p == q
  {
    ReachableIsGood(w);
    assert Registered(w.shared, w.procs[p]) && Registered(w.shared, w.procs[q]);
    var l := w.procs[p].lock;
    assert Balanced(w, l);
    assert p in Owners(w.procs, l) && q in Owners(w.procs, l);
    Owner(w.procs, l, p);
  }

  /** A chat has an entry exactly while some goroutine holds, waits for or has yet to release its
      lock, and the entry counts those goroutines. */
  lemma EntryWhileReferenced(w: World, chat: string)
    requires Reachable(w)
    ensures chat in w.shared.entries <==> exists p :: p in w.procs && w.procs[p].chat == chat
    ensures chat in w.shared.entries ==>
              && w.shared.entries[chat] < |w.shared.locks|
              && w.shared.locks[w.shared.entries[chat]].refs == |set p | p in w.procs && w.procs[p].chat == chat|
  {
    ReachableIsGood(w);
    forall p | p in w.procs && w.procs[p].chat == chat
      ensures Registered(w.shared, w.procs[p])
    {}
    if chat in w.shared.entries {
      var l := w.shared.entries[chat];
      var users := Users(w.procs, l);
      assert Balanced(w, l);
      forall p | p in users
        ensures w.procs[p].chat == chat
      {
        assert Registered(w.shared, w.procs[p]);
      }
      assert users == set p | p in w.procs && w.procs[p].chat == chat;
      var p :| p in users;
    }
  }

  /** Handing the token back never blocks. */
  lemma SendNeverBlocks(w: World, p: nat)
    requires Reachable(w) && p in w.procs && w.procs[p].pc.Sending?
    ensures Enabled(w, Send(p))
  {
    ReachableIsGood(w);
    assert Registered(w.shared, w.procs[p]);
    assert Balanced(w, w.procs[p].lock) && p in Owners(w.procs, w.procs[p].lock);
  }

  predicate Finishes(e: Event) {
    !e.Enter? && !e.Cancel?
  }

  /** While any goroutine is left, some goroutine can go on without a new call or a cancellation:
      no wakeup is ever lost. */
  lemma SomeoneCanGoOn(w: World) returns (e: Event)
    requires Reachable(w) && w.procs != map[]
    ensures Enabled(w, e) && Finishes(e)
  {
    ReachableIsGood(w);
    var p :| p in w.procs;
    assert Registered(w.shared, w.procs[p]);
    var l := w.procs[p].lock;
    assert Balanced(w, l);
    var q := p;
    if w.procs[p].pc.Waiting? {
      if w.shared.locks[l].token {
        return Take(p);
      }
      q :| q in Owners(w.procs, l);
      assert Registered(w.shared, w.procs[q]);
    }
    match w.procs[q].pc
    case Waiting =>
    case GotToken => e := Proceed(q);
    case Holding => e := Unlock(q);
    case Sending => SendNeverBlocks(w, q); e := Send(q);
    case Releasing => e := Release(q);
  }

  ghost predicate HeldBy(w: World, chat: string, q: nat) {
    q in w.procs && w.procs[q].chat == chat && HasToken(w.procs[q].pc)
  }

  lemma SameLockSameChat(w: World, p: nat, q: nat)
    requires Inv(w) && p in w.procs && q in w.procs && w.procs[p].lock == w.procs[q].lock
    ensures w.procs[p].chat == w.procs[q].chat
  {
    assert Registered(w.shared, w.procs[p]) && Registered(w.shared, w.procs[q]);
  }

  lemma TakenMeansHeld(w: World, p: nat)
    requires Inv(w) && p in w.procs && Registered(w.shared, w.procs[p])
    requires !w.shared.locks[w.procs[p].lock].token
    ensures exists q :: HeldBy(w, w.procs[p].chat, q)
  {
    var l := w.procs[p].lock;
    assert Balanced(w, l);
    var q :| q in Owners(w.procs, l);
    SameLockSameChat(w, p, q);
    assert HeldBy(w, w.procs[p].chat, q);
  }

  lemma HeldMeansTaken(w: World, p: nat, q: nat)
    requires Inv(w) && p in w.procs && Registered(w.shared, w.procs[p]) && HeldBy(w, w.procs[p].chat, q)
    ensures !w.shared.locks[w.procs[p].lock].token
  {
    assert Registered(w.shared, w.procs[q]);
    assert Balanced(w, w.procs[p].lock) && q in Owners(w.procs, w.procs[p].lock);
  }

  /** A waiting goroutine gets its chat's turn exactly while no goroutine of that chat has it. */
  lemma TurnIsFreeExactlyWithoutHolder(w: World, p: nat)
    requires Reachable(w) && p in w.procs && w.procs[p].pc.Waiting?
    ensures Enabled(w, Take(p)) <==> forall q :: !HeldBy(w, w.procs[p].chat, q)
  {
    ReachableIsGood(w);
    assert Registered(w.shared, w.procs[p]);
    if w.shared.locks[w.procs[p].lock].token {
      forall q: nat
        ensures !HeldBy(w, w.procs[p].chat, q)
      {
        if HeldBy(w, w.procs[p].chat, q) {
          HeldMeansTaken(w, p, q);
        }
      }
    } else {
      TakenMeansHeld(w, p);
    }
  }

  /** Whatever the others do, a waiting goroutine can give up: it is gone in two steps, and no other goroutine
      nor any token has moved. */
  lemma WaiterCanGiveUp(w: World, p: nat)
    requires Reachable(w) && p in w.procs && w.procs[p].pc.Waiting?
    ensures Enabled(w, Cancel(p)) && Enabled(Step(w, Cancel(p)), Release(p))
    ensures var done := Step(Step(w, Cancel(p)), Release(p));
            && done.procs == w.procs - {p}
            && |done.shared.locks| == |w.shared.locks|
            && forall l | 0 <= l < |w.shared.locks| :: done.shared.locks[l].token == w.shared.locks[l].token
  {
    ReachableIsGood(w);
    assert Registered(w.shared, w.procs[p]);
  }

  /** Once every goroutine is done, no entry is left behind. */
  lemma NothingLeaks(w: World)
    requires Reachable(w) && w.procs == map[]
    ensures w.shared.entries == map[]
  {
    forall chat | chat in w.shared.entries
      ensures false
    {
      EntryWhileReferenced(w, chat);
    }
  }

  /** Without other goroutines in between, a caller that gives up, or that locks and unlocks, leaves
      every entry and every earlier lock as it found them. */
  lemma CallerRestoresRegistry(r: Registry, chat: string)
    requires WellFormed(r) && (chat in r.entries ==> r.locks[r.entries[chat]].refs > 0)
    ensures var l, joined := LockFor(r, chat), Joined(r, chat);
            var gaveUp := Dropped(joined, chat, l);
            var unlocked := Dropped(WithToken(WithToken(joined, l, false), l, true), chat, l);
            && gaveUp.entries == r.entries && gaveUp.locks[..|r.locks|] == r.locks
            && (joined.locks[l].token ==> unlocked == gaveUp)
  {
    var l, joined := LockFor(r, chat), Joined(r, chat);
    var gaveUp := Dropped(joined, chat, l);
    assert forall i | 0 <= i < |r.locks| :: gaveUp.locks[i] == r.locks[i];
    if chat !in r.entries {
      assert gaveUp.entries == r.entries;
    }
    if joined.locks[l].token {
      assert WithToken(WithToken(joined, l, false), l, true).locks == joined.locks;
    }
  }

  // ---- the registry in place ----------------------------------------------

  class ChatTurnLock {
    ghost const id: nat
    var token: bool
    var refs: int

    constructor (ghost id: nat)
      ensures this.id == id && token && refs == 0
    {
      this.id := id;
      token := true;
      refs := 0;
    }
  }

  /** `entries` has the number of each lock, which `made` lists as the state machine numbers them. */
  class ChatTurnLockRegistry {
    var locks: map<string, ChatTurnLock>
    ghost var entries: map<string, nat>
    ghost var made: seq<ChatTurnLock>

    ghost predicate Valid()
      reads this, made
    {
      && (forall i | 0 <= i < |made| :: made[i].id == i)
      && entries.Keys == locks.Keys
      && forall chat | chat in locks :: locks[chat] in made && locks[chat].id == entries[chat]
    }

    /** The registry as the state machine sees it. */
    ghost function View(): (r: Registry)
      reads this, made
      requires Valid()
      ensures WellFormed(r)
    {
      Registry(entries,
               seq(|made|, i requires 0 <= i < |made| reads this, made => Lock(made[i].refs, made[i].token)))
    }

    constructor ()
      ensures Valid() && View() == START.shared
    {
      locks, entries, made := map[], map[], [];
    }

    /** The mutex section that opens `lockChatTurn`. */
    method Join(chat: string) returns (lock: ChatTurnLock)
      requires Valid()
      modifies this, made
      ensures Valid() && lock in made && (lock in old(made) || fresh(lock))
      ensures lock.token == (chat in old(locks) ==> old(locks[chat].token))
      ensures View() == Joined(old(View()), chat) && lock.id == LockFor(old(View()), chat)
    {
      if chat in locks {
        lock := locks[chat];
      } else {
        lock := new ChatTurnLock(|made|);
        locks := locks[chat := lock];
        entries := entries[chat := lock.id];
        made := made + [lock];
      }
      lock.refs := lock.refs + 1;
    }

    /** `releaseChatTurnRef`. */
    method ReleaseRef(chat: string, lock: ChatTurnLock)
      requires Valid() && lock in made
      modifies this, lock
      ensures Valid() && made == old(made)
      ensures View() == Dropped(old(View()), chat, lock.id)
    {
      lock.refs := lock.refs - 1;
      if lock.refs == 0 {
        locks := locks - {chat};
        entries := entries - {chat};
      }
    }

    /** Receiving from the channel, and sending to it; either waits until it can. */
    method Receive(lock: ChatTurnLock)
      requires Valid() && lock in made && lock.token
      modifies lock
      ensures Valid() && !lock.token
      ensures View() == WithToken(old(View()), lock.id, false)
    {
      lock.token := false;
    }

    method SendToken(lock: ChatTurnLock)
      requires Valid() && lock in made && !lock.token
      modifies lock
      ensures Valid() && lock.token
      ensures View() == WithToken(old(View()), lock.id, true)
    {
      lock.token := true;
    }

    /** `lockChatTurn` when no other goroutine takes a step in between. The caller may stop waiting,
        or be found cancelled once it has the token. */
    method LockChatTurn(chat: string, stopsWaiting: bool, cancelledLate: bool)
      returns (lock: ChatTurnLock, ok: bool)
      requires Valid()
      requires !stopsWaiting && chat in locks ==> locks[chat].token
      modifies this, made
      ensures Valid() && ok == (!stopsWaiting && !cancelledLate) && (ok ==> lock in made && !lock.token)
      ensures lock.id == LockFor(old(View()), chat)
      ensures var joined := Joined(old(View()), chat);
              View() == if ok then WithToken(joined, lock.id, false)
                        else if stopsWaiting then Dropped(joined, chat, lock.id)
                        else Dropped(WithToken(WithToken(joined, lock.id, false), lock.id, true), chat, lock.id)
    {
      lock := Join(chat);
      ok := false;
      if stopsWaiting {
        ReleaseRef(chat, lock);
        return;
      }
      Receive(lock);
      if cancelledLate {
        SendToken(lock);
        ReleaseRef(chat, lock);
        return;
      }
      ok := true;
    }

    /** The function that `lockChatTurn` returns, called for the first time. */
    method Unlock(chat: string, lock: ChatTurnLock)
      requires Valid() && lock in made && !lock.token
      modifies this, lock
      ensures Valid()
      ensures View() == Dropped(WithToken(old(View()), lock.id, true), chat, lock.id)
    {
      SendToken(lock);
      ReleaseRef(chat, lock);
    }
  }
}
