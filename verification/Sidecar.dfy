/** The bundled server's lifecycle (`sidecar.rs`): any number of threads start, ask and
    stop it at once, and children die on their own. */
module Sidecar {
  import opened Core

  type Child = nat
  type Thread = nat

  // ----- The shared slot ------------------------------------------------------

  /** `info` keeps a live child and drops a dead one. */
  function Reaped(slot: Option<Child>, alive: set<Child>): Option<Child>
  {
    if slot.Some? && slot.value in alive then slot else None
  }

  /** The `running` field, each method one critical section of its mutex. `alive` is what
      `try_wait` answers. */
  class LocalServer {
    var running: Option<Child>

    constructor ()
      ensures running == None
    {
      running := None;
    }

    method Info(alive: set<Child>) returns (info: Option<Child>)
      modifies this
      ensures running == Reaped(old(running), alive)
      ensures forall c :: info == Some(c) <==> old(running) == Some(c) && c in alive
      ensures info == running
    {
      if running.None? {
        return None;
      }
      if running.value in alive {
        info := running;
      } else {
        running := None;
        info := None;
      }
    }

    /** The end of `start_once`: any occupant is taken out to be terminated first. */
    method Insert(child: Child) returns (previous: Option<Child>)
      modifies this
      ensures previous == old(running) && running == Some(child)
    {
      previous := running;
      running := Some(child);
    }

    method Take() returns (taken: Option<Child>)
      modifies this
      ensures taken == old(running) && running == None
    {
      taken := running;
      running := None;
    }
  }

  // ----- Threads --------------------------------------------------------------

  /** Where a thread is. Everything from Checking to Replacing holds the startup lock;
      Replacing also holds the running lock. */
  datatype Place =
    | Idle
    | WaitingForStartup
    | Checking
    | Launching
    | Starting(child: Child)
    | Abandoning(child: Child)
    | Inserting(child: Child)
    | Replacing(previous: Child, child: Child)
    | Stopping(child: Child)

  predicate HoldsStartup(place: Place)
  {
    place.Checking? || place.Launching? || place.Starting? || place.Abandoning? || place.Inserting? || place.Replacing?
  }

  datatype State = State(
    slot: Option<Child>,
    startup: Option<Thread>,
    places: map<Thread, Place>,
    alive: set<Child>,
    spawned: set<Child>)

  function At(s: State, t: Thread): Place
  {
    if t in s.places then s.places[t] else Idle
  }

  function Moved(s: State, t: Thread, place: Place): State
  {
    s.(places := s.places[t := place])
  }

  /** No thread is inside the running lock across steps, except one replacing an occupant. */
  ghost predicate RunningFree(s: State)
  {
    forall t: Thread :: !At(s, t).Replacing?
  }

  datatype Event =
    | CallStart(thread: Thread)
    | Acquire(thread: Thread)
    | Check(thread: Thread)
    | SpawnFails(thread: Thread)
    | Spawns(thread: Thread, child: Child)
    | BecomesHealthy(thread: Thread)
    | LaunchFails(thread: Thread)
    | AbandonDone(thread: Thread)
    | Insert(thread: Thread)
    | ReplaceDone(thread: Thread)
    | CallInfo(thread: Thread)
    | CallShutdown(thread: Thread)
    | StopDone(thread: Thread)
    | Crash(child: Child)

  /** When a thread can take the step. */
  ghost predicate Enabled(s: State, e: Event)
  {
    match e
    case CallStart(t) => At(s, t).Idle?
    case Acquire(t) => At(s, t).WaitingForStartup? && s.startup == None
    case Check(t) => At(s, t).Checking? && RunningFree(s)
    case SpawnFails(t) => At(s, t).Launching?
    case Spawns(t, c) => At(s, t).Launching? && c !in s.spawned
    case BecomesHealthy(t) => At(s, t).Starting?
    case LaunchFails(t) => At(s, t).Starting?
    case AbandonDone(t) => At(s, t).Abandoning?
    case Insert(t) => At(s, t).Inserting? && RunningFree(s)
    case ReplaceDone(t) => At(s, t).Replacing?
    case CallInfo(t) => At(s, t).Idle? && RunningFree(s)
    case CallShutdown(t) => At(s, t).Idle? && RunningFree(s)
    case StopDone(t) => At(s, t).Stopping?
    case Crash(c) => c in s.alive
  }

  function Released(s: State, t: Thread): State
  {
    Moved(s, t, Idle).(startup := None)
  }

  function After(s: State, e: Event): State
  {
    match e
    case CallStart(t) => Moved(s, t, WaitingForStartup)
    case Acquire(t) => Moved(s, t, Checking).(startup := Some(t))
    case Check(t) =>
      var slot := Reaped(s.slot, s.alive);
      if slot.Some? then Released(s, t).(slot := slot) else Moved(s, t, Launching).(slot := slot)
    case SpawnFails(t) => Released(s, t)
    case Spawns(t, c) => Moved(s, t, Starting(c)).(alive := s.alive + {c}, spawned := s.spawned + {c})
    case BecomesHealthy(t) => if At(s, t).Starting? then Moved(s, t, Inserting(At(s, t).child)) else s
    case LaunchFails(t) => if At(s, t).Starting? then Moved(s, t, Abandoning(At(s, t).child)) else s
    case AbandonDone(t) => if At(s, t).Abandoning? then Released(s, t).(alive := s.alive - {At(s, t).child}) else s
    case Insert(t) =>
      if !At(s, t).Inserting? then s
      else if s.slot.Some? then Moved(s, t, Replacing(s.slot.value, At(s, t).child)).(slot := None)
      else Released(s, t).(slot := Some(At(s, t).child))
    case ReplaceDone(t) =>
      if At(s, t).Replacing? then
        Released(s, t).(slot := Some(At(s, t).child), alive := s.alive - {At(s, t).previous})
      else s
    case CallInfo(t) => s.(slot := Reaped(s.slot, s.alive))
    case CallShutdown(t) => if s.slot.Some? then Moved(s, t, Stopping(s.slot.value)).(slot := None) else s
    case StopDone(t) => if At(s, t).Stopping? then Moved(s, t, Idle).(alive := s.alive - {At(s, t).child}) else s
    case Crash(c) => s.(alive := s.alive - {c})
  }

  const INITIAL := State(None, None, map[], {}, {})

  /** A run: states joined by enabled steps, in any interleaving. */
  ghost predicate Run(states: seq<State>, events: seq<Event>)
  {
    && |states| == |events| + 1
    && forall i :: 0 <= i < |events| ==> Enabled(states[i], events[i]) && states[i + 1] == After(states[i], events[i])
  }

  // ----- Ownership ------------------------------------------------------------

  datatype Owner = TheSlot | TheThread(thread: Thread)

  /** Who is responsible for ending a child. */
  function Holding(s: State, o: Owner): Option<Child>
  {
    match o
    case TheSlot => s.slot
    case TheThread(t) =>
      match At(s, t)
      case Starting(c) => Some(c)
      case Abandoning(c) => Some(c)
      case Inserting(c) => Some(c)
      case Replacing(_, c) => Some(c)
      case Stopping(c) => Some(c)
      case _ => None
  }

  /** A launch is under way: the slot was found empty and nothing but this thread may fill it. */
  predicate PastCheck(place: Place)
  {
    place.Launching? || place.Starting? || place.Abandoning? || place.Inserting?
  }

  ghost predicate Invariant(s: State)
  {
    && (forall t: Thread :: HoldsStartup(At(s, t)) <==> s.startup == Some(t))
    && RunningFree(s)
    && (forall t: Thread :: PastCheck(At(s, t)) ==> s.slot == None)
    && (forall o, p :: o != p && Holding(s, o).Some? ==> Holding(s, o) != Holding(s, p))
    && (forall c :: c in s.alive ==> exists o :: Holding(s, o) == Some(c))
    && (forall o :: Holding(s, o).Some? ==> Holding(s, o).value in s.spawned)
    && s.alive <= s.spawned
  }

  lemma InitialInvariant()
    ensures Invariant(INITIAL)
  {
  }

  lemma StepKeepsLocks(s: State, e: Event)
    requires Invariant(s) && Enabled(s, e)
    ensures var n := After(s, e);
            && (forall t: Thread :: HoldsStartup(At(n, t)) <==> n.startup == Some(t))
            && RunningFree(n)
            && (forall t: Thread :: PastCheck(At(n, t)) ==> n.slot == None)
  {
  }

  /** Whom an owner has its child from: itself, unless the step handed one over. */
  function Source(e: Event, o: Owner): Owner
  {
    if e.Insert? && o == TheSlot then TheThread(e.thread)
    else if e.CallShutdown? && o == TheThread(e.thread) then TheSlot
    else o
  }

  lemma HeldBefore(s: State, e: Event, o: Owner)
    requires Invariant(s) && Enabled(s, e) && Holding(After(s, e), o).Some?
    ensures var n := After(s, e);
            || Holding(s, Source(e, o)) == Holding(n, o)
            || (e.Spawns? && o == TheThread(e.thread) && Holding(n, o) == Some(e.child))
    ensures e.Insert? ==> o != TheThread(e.thread)
    ensures e.CallShutdown? ==> o != TheSlot
  {
    if !e.Crash? && e.Insert? {
      assert PastCheck(At(s, e.thread));
    }
  }

  lemma StepKeepsOwnersApart(s: State, e: Event)
    requires Invariant(s) && Enabled(s, e)
    ensures var n := After(s, e);
            && (forall o, p :: o != p && Holding(n, o).Some? ==> Holding(n, o) != Holding(n, p))
            && (forall o :: Holding(n, o).Some? ==> Holding(n, o).value in n.spawned)
  {
    var n := After(s, e);
    forall o | Holding(n, o).Some?
      ensures Holding(n, o).value in n.spawned
    {
      HeldBefore(s, e, o);
    }
    forall o, p | o != p && Holding(n, o).Some?
      ensures Holding(n, o) != Holding(n, p)
    {
      HeldBefore(s, e, o);
      if Holding(n, p).Some? {
        HeldBefore(s, e, p);
      }
    }
  }

  /** Whom a still living child is with after the step. */
  function Target(s: State, e: Event, o: Owner): Owner
  {
    if e.Insert? && o == TheThread(e.thread) then TheSlot
    else if e.CallShutdown? && o == TheSlot then TheThread(e.thread)
    else o
  }

  lemma StepKeepsOwned(s: State, e: Event, c: Child)
    requires Invariant(s) && Enabled(s, e) && c in After(s, e).alive
    ensures exists o :: Holding(After(s, e), o) == Some(c)
  {
    var n := After(s, e);
    if e.Spawns? && c == e.child {
      assert Holding(n, TheThread(e.thread)) == Some(c);
    } else {
      assert c in s.alive;
      var o :| Holding(s, o) == Some(c);
      if e.Insert? {
        assert PastCheck(At(s, e.thread));
      }
      assert Holding(n, Target(s, e, o)) == Some(c);
    }
  }

  /** Every step keeps the locks, the empty slot under a launch, and single ownership. */
  lemma StepKeepsInvariant(s: State, e: Event)
    requires Invariant(s) && Enabled(s, e)
    ensures Invariant(After(s, e))
  {
    StepKeepsLocks(s, e);
    StepKeepsOwnersApart(s, e);
    forall c | c in After(s, e).alive
      ensures exists o :: Holding(After(s, e), o) == Some(c)
    {
      StepKeepsOwned(s, e, c);
    }
  }

  lemma {:induction false} RunKeepsInvariant(states: seq<State>, events: seq<Event>, i: nat)
    requires Run(states, events) && Invariant(states[0]) && i < |states|
    ensures Invariant(states[i])
  {
    if i > 0 {
      RunKeepsInvariant(states, events, i - 1);
      StepKeepsInvariant(states[i - 1], events[i - 1]);
    }
  }

  /** In every interleaving from the start: each living child belongs to exactly one of
      the slot, the one launching thread, or a thread terminating it. */
  lemma EachChildHasOneOwner(states: seq<State>, events: seq<Event>, i: nat, c: Child)
    requires Run(states, events) && states[0] == INITIAL && i < |states| && c in states[i].alive
    ensures exists o :: Holding(states[i], o) == Some(c)
    ensures forall o, p :: Holding(states[i], o) == Some(c) && Holding(states[i], p) == Some(c) ==> o == p
    ensures forall t: Thread, u: Thread :: HoldsStartup(At(states[i], t)) && HoldsStartup(At(states[i], u)) ==> t == u
  {
    InitialInvariant();
    RunKeepsInvariant(states, events, i);
  }

  /** The slot is empty at every insertion, so the defensive terminate never runs. */
  lemma DefensiveTerminateNeverRuns(states: seq<State>, events: seq<Event>, i: nat)
    requires Run(states, events) && states[0] == INITIAL && i < |events|
    ensures events[i].Insert? ==> states[i].slot == None
    ensures !events[i].ReplaceDone?
  {
    InitialInvariant();
    RunKeepsInvariant(states, events, i);
    assert Enabled(states[i], events[i]);
    if events[i].Insert? {
      assert PastCheck(At(states[i], events[i].thread));
    }
  }

  // ----- How many children ----------------------------------------------------

  ghost function Stoppers(s: State): set<Thread>
  {
    set t | t in s.places && s.places[t].Stopping?
  }

  ghost function Stopped(s: State, threads: set<Thread>): set<Child>
  {
    set t | t in threads && t in s.places && s.places[t].Stopping? :: s.places[t].child
  }

  lemma {:induction false} StoppedSize(s: State, threads: set<Thread>)
    ensures |Stopped(s, threads)| <= |threads|
  {
    if threads == {} {
      assert Stopped(s, threads) == {};
    } else {
      var t :| t in threads;
      StoppedSize(s, threads - {t});
      var extra := if t in s.places && s.places[t].Stopping? then {s.places[t].child} else {};
      assert Stopped(s, threads) == Stopped(s, threads - {t}) + extra;
    }
  }

  /** The child of the slot or of the launch under way: never two of them. */
  ghost function Current(s: State): set<Child>
  {
    set c | c in s.alive && (Holding(s, TheSlot) == Some(c) ||
                             (s.startup.Some? && Holding(s, TheThread(s.startup.value)) == Some(c)))
  }

  lemma CurrentIsOne(s: State)
    requires Invariant(s)
    ensures |Current(s)| <= 1
  {
    forall c, d | c in Current(s) && d in Current(s)
      ensures c == d
    {
      if s.startup.Some? {
        var t: Thread := s.startup.value;
        assert HoldsStartup(At(s, t));
      }
    }
    if Current(s) != {} {
      var c :| c in Current(s);
      assert Current(s) == {c};
    }
  }

  /** Living children never exceed one plus the shutdowns in progress. */
  lemma ChildrenAreBounded(states: seq<State>, events: seq<Event>, i: nat)
    requires Run(states, events) && states[0] == INITIAL && i < |states|
    ensures |states[i].alive| <= 1 + |Stoppers(states[i])|
  {
    var s := states[i];
    InitialInvariant();
    RunKeepsInvariant(states, events, i);
    CurrentIsOne(s);
    StoppedSize(s, Stoppers(s));
    forall c | c in s.alive
      ensures c in Current(s) + Stopped(s, Stoppers(s))
    {
      var o :| Holding(s, o) == Some(c);
      if o.TheThread? {
        var t: Thread := o.thread;
        if HoldsStartup(At(s, t)) {
        } else {
          assert t in Stoppers(s);
        }
      }
    }
    SubsetSize(s.alive, Current(s) + Stopped(s, Stoppers(s)));
  }

  // ----- What callers are handed ----------------------------------------------

  /** The server a step hands its caller, if it hands one. */
  function Handed(s: State, e: Event): Option<Child>
  {
    match e
    case Check(_) => Reaped(s.slot, s.alive)
    case CallInfo(_) => Reaped(s.slot, s.alive)
    case Insert(t) => if At(s, t).Inserting? && s.slot.None? then Some(At(s, t).child) else None
    case _ => None
  }

  lemma HandedIsInSlot(s: State, e: Event)
    requires Invariant(s) && Enabled(s, e) && Handed(s, e).Some?
    ensures After(s, e).slot == Handed(s, e)
  {
  }

  /** A call to start that ends in success: the thread leaves the startup section by looking
      at the slot or by filling it. */
  predicate Answers(s: State, e: Event)
  {
    (e.Check? || e.Insert?) && HoldsStartup(At(s, e.thread)) && !HoldsStartup(At(After(s, e), e.thread))
  }

  /** Whoever looks is handed the slot's living child, and only that; a caller of start that
      leaves with success is handed a server, the one that is now in the slot. */
  lemma CallersAreAnswered(s: State, e: Event, c: Child)
    requires Invariant(s) && Enabled(s, e)
    ensures e.CallInfo? || e.Check? ==> (Handed(s, e) == Some(c) <==> s.slot == Some(c) && c in s.alive)
    ensures e.Check? || e.Insert? ==> (Answers(s, e) <==> Handed(s, e).Some?)
    ensures Answers(s, e) ==> Handed(s, e) == After(s, e).slot
    ensures e.Insert? ==> At(s, e.thread).Inserting? && Handed(s, e) == Some(At(s, e.thread).child)
    ensures Handed(s, e).Some? ==> e.Check? || e.CallInfo? || e.Insert?
  {
    if e.Insert? {
      assert PastCheck(At(s, e.thread));
    }
  }

  predicate Quiet(e: Event)
  {
    !e.Crash? && !e.CallShutdown?
  }

  lemma QuietKeepsSlot(s: State, e: Event, c: Child)
    requires Invariant(s) && Enabled(s, e) && Quiet(e)
    requires s.slot == Some(c) && c in s.alive
    ensures After(s, e).slot == Some(c) && c in After(s, e).alive
    ensures Handed(s, e) == (if e.Check? || e.CallInfo? then Some(c) else None) && !e.Spawns?
  {
    if e.Insert? || e.Spawns? || e.AbandonDone? {
      assert PastCheck(At(s, e.thread));
    }
    if e.StopDone? {
      assert Holding(s, TheThread(e.thread)) != Holding(s, TheSlot);
    }
  }

  /** Whoever asks is handed this server, and nobody another. */
  predicate AnsweredWith(s: State, e: Event, c: Child)
  {
    Handed(s, e) == if e.Check? || e.CallInfo? then Some(c) else None
  }

  lemma {:induction false} QuietRunKeepsSlot(states: seq<State>, events: seq<Event>, i: nat, j: nat, c: Child)
    requires Run(states, events) && Invariant(states[0]) && i <= j < |states|
    requires states[i].slot == Some(c) && c in states[i].alive
    requires forall k :: i <= k < j ==> Quiet(events[k])
    ensures states[j].slot == Some(c) && c in states[j].alive
    ensures forall k :: i <= k < j ==> AnsweredWith(states[k], events[k], c) && !events[k].Spawns?
    decreases j - i
  {
    if i < j {
      RunKeepsInvariant(states, events, i);
      QuietKeepsSlot(states[i], events[i], c);
      QuietRunKeepsSlot(states, events, i + 1, j, c);
    }
  }

  /** Once one caller has been handed a live server, every caller that asks is handed the
      same one as long as nothing crashes and nobody shuts down, however their calls
      interleave, and no rival is spawned. */
  lemma ConcurrentCallersShareOneServer(states: seq<State>, events: seq<Event>, i: nat, j: nat, c: Child)
    requires Run(states, events) && states[0] == INITIAL && i < j < |events|
    requires Handed(states[i], events[i]) == Some(c) && c in states[i + 1].alive
    requires forall k :: i < k <= j ==> Quiet(events[k])
    ensures forall k :: i < k <= j && (events[k].Check? || events[k].CallInfo?) ==>
              Handed(states[k], events[k]) == Some(c)
    ensures forall k :: i < k <= j ==> Handed(states[k], events[k]) in {None, Some(c)} && !events[k].Spawns?
  {
    InitialInvariant();
    RunKeepsInvariant(states, events, i);
    HandedIsInSlot(states[i], events[i]);
    QuietRunKeepsSlot(states, events, i + 1, j + 1, c);
    forall k | i < k <= j
      ensures AnsweredWith(states[k], events[k], c) && !events[k].Spawns?
    {
    }
  }

  /** In every run, a call to start that ends in success hands its caller the server that is
      in the slot, and a look hands out exactly the slot's living child. */
  lemma StartHandsOutTheSlot(states: seq<State>, events: seq<Event>, i: nat, c: Child)
    requires Run(states, events) && states[0] == INITIAL && i < |events|
    ensures Answers(states[i], events[i]) ==>
              Handed(states[i], events[i]).Some? && Handed(states[i], events[i]) == states[i + 1].slot
    ensures events[i].Check? || events[i].CallInfo? ==>
              (Handed(states[i], events[i]) == Some(c) <==> states[i].slot == Some(c) && c in states[i].alive)
  {
    InitialInvariant();
    RunKeepsInvariant(states, events, i);
    CallersAreAnswered(states[i], events[i], c);
  }
}

/** The one folder pick awaiting confirmation. */
module FolderPicks {
  import opened Core

  datatype Pick = Pick(token: string, root: string, isLibrary: bool)

  function Taken(slot: Option<Pick>, token: string): (Option<Pick>, Option<(string, bool)>)
  {
    if slot.Some? && slot.value.token == token then (None, Some((slot.value.root, slot.value.isLibrary)))
    else (slot, None)
  }

  datatype Call = Stored(pick: Pick) | Took(token: string)

  /** The slot after a history of calls. */
  function SlotAfter(calls: seq<Call>): Option<Pick>
  {
    if calls == [] then None
    else
      match Last(calls)
      case Stored(pick) => Some(pick)
      case Took(token) => Taken(SlotAfter(Init(calls)), token).0
  }

  /** What the i-th call redeems. */
  function Redeems(calls: seq<Call>, i: nat): Option<(string, bool)>
    requires i < |calls|
  {
    match calls[i]
    case Stored(_) => None
    case Took(token) => Taken(SlotAfter(calls[..i]), token).1
  }

  /** Every pick minted its own token. */
  ghost predicate FreshTokens(calls: seq<Call>)
  {
    forall i, j :: 0 <= i < j < |calls| && calls[i].Stored? && calls[j].Stored? ==>
        calls[i].pick.token != calls[j].pick.token
  }

  /** The i-th call stored this pick and nothing later replaced or redeemed it. */
  ghost predicate Pending(calls: seq<Call>, pick: Pick, i: nat)
  {
    && i < |calls| && calls[i] == Stored(pick)
    && forall j :: i < j < |calls| ==> calls[j].Took? && calls[j].token != pick.token
  }

  /** The slot holds a pick exactly when it is the latest one stored and nobody has
      redeemed it since. */
  lemma {:induction false} SlotHoldsLatest(calls: seq<Call>, pick: Pick)
    ensures SlotAfter(calls) == Some(pick) <==> exists i: nat :: Pending(calls, pick, i)
  {
    if calls != [] {
      var front := Init(calls);
      SlotHoldsLatest(front, pick);
      if SlotAfter(calls) == Some(pick) {
        if Last(calls).Stored? {
          assert Pending(calls, pick, |front|);
        } else {
          var i: nat :| Pending(front, pick, i);
          assert Pending(calls, pick, i);
        }
      }
      if i: nat :| Pending(calls, pick, i) {
        if i < |front| {
          assert Pending(front, pick, i);
        }
      }
    }
  }

  /** A token redeems the folder it was minted for, once, and only while no later pick
      has replaced it. */
  lemma RedeemsOwnPickOnce(calls: seq<Call>, i: nat)
    requires FreshTokens(calls) && i < |calls| && Redeems(calls, i).Some?
    ensures exists k :: 0 <= k < i && calls[k].Stored? && calls[k].pick.token == calls[i].token
                        && Redeems(calls, i) == Some((calls[k].pick.root, calls[k].pick.isLibrary))
    ensures forall j :: i < j < |calls| && calls[j].Took? && calls[j].token == calls[i].token ==>
            Redeems(calls, j) == None
  {
    var pick := SlotAfter(calls[..i]).value;
    SlotHoldsLatest(calls[..i], pick);
    var k: nat :| Pending(calls[..i], pick, k);
    assert calls[k] == Stored(pick);
    forall j | i < j < |calls| && calls[j].Took? && calls[j].token == calls[i].token
      ensures Redeems(calls, j) == None
    {
      RedeemedTwice(calls, i, j, k);
    }
  }

  lemma RedeemedTwice(calls: seq<Call>, i: nat, j: nat, k: nat)
    requires FreshTokens(calls) && k < i < j < |calls|
    requires calls[k].Stored? && calls[i].Took? && calls[j].Took?
    requires calls[i].token == calls[j].token == calls[k].pick.token
    ensures Redeems(calls, j) == None
  {
    var slot := SlotAfter(calls[..j]);
    if slot.Some? && slot.value.token == calls[j].token {
      SlotHoldsLatest(calls[..j], slot.value);
    }
  }

  lemma NextCall(calls: seq<Call>, call: Call)
    ensures Init(calls + [call]) == calls && Last(calls + [call]) == call && (calls + [call])[..|calls|] == calls
  {
  }

  class PendingPick {
    var slot: Option<Pick>
    ghost var calls: seq<Call>

    ghost predicate Valid()
      reads this
    {
      slot == SlotAfter(calls)
    }

    constructor ()
      ensures Valid() && calls == []
    {
      slot, calls := None, [];
    }

    /** Parks a path under a freshly minted token: it is pending, and nothing earlier is. */
    method Store(token: string, root: string, isLibrary: bool)
      requires Valid()
      modifies this
      ensures Valid() && calls == old(calls) + [Stored(Pick(token, root, isLibrary))]
      ensures forall pick, i: nat :: Pending(calls, pick, i) <==>
              i == |old(calls)| && pick == Pick(token, root, isLibrary)
    {
      slot := Some(Pick(token, root, isLibrary));
      NextCall(calls, Stored(Pick(token, root, isLibrary)));
      calls := calls + [Stored(Pick(token, root, isLibrary))];
    }

    /** A token redeems a pick exactly when one with that token is pending, and then that pick
        and for the last time. */
    method Take(token: string) returns (redeemed: Option<(string, bool)>)
      requires Valid()
      modifies this
      ensures Valid() && calls == old(calls) + [Took(token)] && redeemed == Redeems(calls, |old(calls)|)
      ensures redeemed.Some? <==> exists pick, i: nat :: Pending(old(calls), pick, i) && pick.token == token
      ensures forall pick, i: nat :: Pending(old(calls), pick, i) && pick.token == token ==>
                redeemed == Some((pick.root, pick.isLibrary)) && !Pending(calls, pick, i)
    {
      PendingIsSlot(calls);
      NextCall(calls, Took(token));
      if slot.Some? && slot.value.token == token {
        redeemed := Some((slot.value.root, slot.value.isLibrary));
        slot := None;
      } else {
        redeemed := None;
      }
      calls := calls + [Took(token)];
    }
  }

  lemma PendingIsSlot(calls: seq<Call>)
    ensures forall pick, i: nat :: Pending(calls, pick, i) ==> SlotAfter(calls) == Some(pick)
    ensures SlotAfter(calls).Some? ==> exists i: nat :: Pending(calls, SlotAfter(calls).value, i)
  {
    forall pick, i: nat | Pending(calls, pick, i)
      ensures SlotAfter(calls) == Some(pick)
    {
      SlotHoldsLatest(calls, pick);
    }
    if SlotAfter(calls).Some? {
      SlotHoldsLatest(calls, SlotAfter(calls).value);
    }
  }
}
