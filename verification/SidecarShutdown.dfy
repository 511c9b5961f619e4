/** Exactly when a shutdown of the bundled server is final (`shutdown` takes the slot without
    the startup lock). */
module SidecarShutdown {
  import opened Core
  import opened Sidecar

  /** A thread that can still put a living server into the slot. */
  predicate MayInsert(s: State, t: Thread)
  {
    var place := At(s, t);
    || place.WaitingForStartup? || place.Checking? || place.Launching?
    || ((place.Starting? || place.Inserting?) && place.child in s.alive)
  }

  ghost predicate AllIdle(s: State)
  {
    forall t: Thread :: At(s, t).Idle?
  }

  /** A run from one state to another in which nobody asks for the server again. */
  ghost predicate Continuation(s: State, n: State, states: seq<State>, events: seq<Event>)
  {
    && Run(states, events) && states[0] == s && Last(states) == n
    && forall e :: e in events ==> !e.CallStart?
  }

  ghost predicate Reaches(s: State, n: State)
  {
    exists states, events :: Continuation(s, n, states, events)
  }

  lemma ReachesItself(s: State)
    ensures Reaches(s, s)
  {
    assert Continuation(s, s, [s], []);
  }

  lemma ReachesNext(s: State, m: State, e: Event)
    requires Reaches(s, m) && Enabled(m, e) && !e.CallStart?
    ensures Reaches(s, After(m, e))
  {
    var states, events :| Continuation(s, m, states, events);
    assert Continuation(s, After(m, e), states + [After(m, e)], events + [e]);
  }

  // ----- Nothing can come back ------------------------------------------------

  /** No living server in the slot, and nobody on the way to put one there. */
  ghost predicate Down(s: State)
  {
    && (forall t: Thread :: !MayInsert(s, t))
    && (s.slot.Some? ==> s.slot.value !in s.alive)
  }

  lemma StepKeepsDown(s: State, e: Event)
    requires Invariant(s) && Down(s) && Enabled(s, e) && !e.CallStart?
    ensures Down(After(s, e))
  {
    if e.Acquire? || e.Check? || e.SpawnFails? || e.Spawns? || e.BecomesHealthy? || e.LaunchFails? || e.Insert? {
      assert !MayInsert(s, e.thread);
    }
    forall t: Thread
      ensures !MayInsert(After(s, e), t)
    {
      assert !MayInsert(s, t);
    }
  }

  lemma {:induction false} RunKeepsDown(states: seq<State>, events: seq<Event>, i: nat)
    requires Run(states, events) && Invariant(states[0]) && Down(states[0]) && i < |states|
    requires forall e :: e in events ==> !e.CallStart?
    ensures Invariant(states[i]) && Down(states[i])
  {
    if i > 0 {
      RunKeepsDown(states, events, i - 1);
      assert events[i - 1] in events;
      StepKeepsDown(states[i - 1], events[i - 1]);
      StepKeepsInvariant(states[i - 1], events[i - 1]);
    }
  }

  lemma DownEndsEmpty(s: State, n: State)
    requires Invariant(s) && Down(s) && Reaches(s, n) && AllIdle(n)
    ensures n.alive == {}
  {
    var states, events :| Continuation(s, n, states, events);
    RunKeepsDown(states, events, |states| - 1);
    IdleHoldsNothing(n);
    assert forall c :: c in n.alive ==> Holding(n, TheSlot) == Some(c);
  }

  lemma IdleHoldsNothing(s: State)
    requires AllIdle(s)
    ensures forall t: Thread :: Holding(s, TheThread(t)) == None
  {
  }

  // ----- Otherwise a server can be left running -------------------------------

  ghost predicate Running(s: State, c: Child)
  {
    Invariant(s) && s.startup == None && s.slot == Some(c) && c in s.alive
  }

  lemma {:induction false} Bound(children: set<Child>) returns (c: Child)
    ensures forall d :: d in children ==> d < c
  {
    if children == {} {
      c := 0;
    } else {
      var d :| d in children;
      var b := Bound(children - {d});
      c := Max(b, d + 1);
      assert forall e :: e in children ==> e == d || e in children - {d};
    }
  }

  /** How many steps a launching thread is from the end. */
  function ToGo(place: Place): nat
  {
    match place
    case WaitingForStartup => 5
    case Checking => 4
    case Launching => 3
    case Starting(_) => 2
    case Inserting(_) => 1
    case Idle => 0
    case Abandoning(_) => 0
    case Replacing(_, _) => 0
    case Stopping(_) => 0
  }

  /** The next step of a launch that goes well. */
  function Onward(s: State, t: Thread, spare: Child): Event
  {
    match At(s, t)
    case WaitingForStartup => Acquire(t)
    case Checking => Check(t)
    case Launching => Spawns(t, spare)
    case Starting(_) => BecomesHealthy(t)
    case Inserting(_) => Insert(t)
    case Idle => StopDone(t)
    case Abandoning(_) => StopDone(t)
    case Replacing(_, _) => StopDone(t)
    case Stopping(_) => StopDone(t)
  }

  lemma OnwardStep(s: State, t: Thread, spare: Child)
    requires Invariant(s) && MayInsert(s, t) && spare !in s.spawned
    requires At(s, t).WaitingForStartup? ==> s.startup == None
    requires s.slot.Some? ==> s.slot.value !in s.alive
    ensures var e := Onward(s, t, spare);
            var n := After(s, e);
            && Enabled(s, e) && !e.CallStart?
            && if At(s, t).Inserting? then n.startup == None && n.slot == Some(At(s, t).child)
            && n.slot.value in n.alive
               else MayInsert(n, t) && HoldsStartup(At(n, t)) && ToGo(At(n, t)) < ToGo(At(s, t))
                    && (n.slot.Some? ==> n.slot.value !in n.alive)
  {
    if At(s, t).Inserting? {
      assert PastCheck(At(s, t));
    }
    if At(s, t).Launching? || At(s, t).Starting? {
      assert PastCheck(At(s, t));
    }
  }

  /** A thread that may insert, does. */
  lemma {:induction false} FinishLaunch(start: State, s: State, t: Thread) returns (n: State, c: Child)
    requires Reaches(start, s) && Invariant(s) && MayInsert(s, t)
    requires At(s, t).WaitingForStartup? ==> s.startup == None
    requires s.slot.Some? ==> s.slot.value !in s.alive
    ensures Reaches(start, n) && Running(n, c)
    decreases ToGo(At(s, t))
  {
    var spare := Bound(s.spawned);
    var e := Onward(s, t, spare);
    OnwardStep(s, t, spare);
    ReachesNext(start, s, e);
    StepKeepsInvariant(s, e);
    if At(s, t).Inserting? {
      n, c := After(s, e), At(s, t).child;
    } else {
      n, c := FinishLaunch(start, After(s, e), t);
    }
  }

  /** A holder of the startup lock that can no longer insert a living server gives it up. */
  lemma {:induction false} FinishHolder(start: State, s: State, h: Thread) returns (n: State)
    requires Reaches(start, s) && Invariant(s) && s.startup == Some(h) && !MayInsert(s, h)
    requires s.slot.Some? ==> s.slot.value !in s.alive
    ensures Reaches(start, n) && Invariant(n) && n.startup == None
    ensures n.slot.Some? ==> n.slot.value !in n.alive
    ensures forall t: Thread :: t != h ==> At(n, t) == At(s, t)
    decreases if At(s, h).Starting? then 1 else 0
  {
    assert HoldsStartup(At(s, h));
    var e := if At(s, h).Starting? then LaunchFails(h) else if At(s, h).Abandoning? then AbandonDone(h) else Insert(h);
    assert PastCheck(At(s, h));
    ReachesNext(start, s, e);
    StepKeepsInvariant(s, e);
    if At(s, h).Starting? {
      n := FinishHolder(start, After(s, e), h);
    } else {
      n := After(s, e);
    }
  }

  ghost function Busy(s: State): set<Thread>
  {
    set t | t in s.places && !s.places[t].Idle?
  }

  /** With a server running and nobody launching, everybody else comes to rest and leaves it. */
  lemma {:induction false} ComeToRest(start: State, s: State, c: Child) returns (n: State)
    requires Reaches(start, s) && Running(s, c)
    ensures Reaches(start, n) && Running(n, c) && AllIdle(n)
    decreases Busy(s)
  {
    if Busy(s) == {} {
      forall t: Thread
        ensures At(s, t).Idle?
      {
        assert t !in Busy(s);
      }
      n := s;
    } else {
      var t: Thread :| t in Busy(s);
      assert !HoldsStartup(At(s, t));
      var m := RestOne(start, s, c, t);
      n := ComeToRest(start, m, c);
    }
  }

  lemma RestOne(start: State, s: State, c: Child, t: Thread) returns (m: State)
    requires Reaches(start, s) && Running(s, c) && (At(s, t).WaitingForStartup? || At(s, t).Stopping?) && t in s.places
    ensures Reaches(start, m) && Running(m, c) && Busy(m) == Busy(s) - {t}
  {
    if At(s, t).Stopping? {
      assert Holding(s, TheThread(t)) != Holding(s, TheSlot);
      ReachesNext(start, s, StopDone(t));
      StepKeepsInvariant(s, StopDone(t));
      m := After(s, StopDone(t));
    } else {
      var a := After(s, Acquire(t));
      ReachesNext(start, s, Acquire(t));
      StepKeepsInvariant(s, Acquire(t));
      ReachesNext(start, a, Check(t));
      StepKeepsInvariant(a, Check(t));
      m := After(a, Check(t));
    }
  }

  lemma LaunchCanLeaveServer(s: State, t: Thread) returns (n: State)
    requires Invariant(s) && MayInsert(s, t) && (s.slot.Some? ==> s.slot.value !in s.alive)
    ensures Reaches(s, n) && AllIdle(n) && n.slot.Some? && n.slot.value in n.alive
  {
    ReachesItself(s);
    var m, c;
    if s.startup.Some? && MayInsert(s, s.startup.value) {
      assert HoldsStartup(At(s, s.startup.value));
      m, c := FinishLaunch(s, s, s.startup.value);
    } else if s.startup.Some? {
      var h: Thread := s.startup.value;
      assert HoldsStartup(At(s, t)) <==> s.startup == Some(t);
      var free := FinishHolder(s, s, h);
      m, c := FinishLaunch(s, free, t);
    } else {
      m, c := FinishLaunch(s, s, t);
    }
    n := ComeToRest(s, m, c);
  }

  // ----- The condition --------------------------------------------------------

  lemma ShutdownLeavesPlaces(s: State, e: Event)
    requires Enabled(s, e) && e.CallShutdown?
    ensures forall t: Thread :: MayInsert(After(s, e), t) <==> MayInsert(s, t)
    ensures After(s, e).slot == None
  {
    forall t: Thread
      ensures MayInsert(After(s, e), t) <==> MayInsert(s, t)
    {
    }
  }

  /** A shutdown is final if and only if, when it is called, no thread is waiting for the
      startup lock, checking, launching, or starting or inserting a living child. Then
      every later moment of rest finds no server alive, unless somebody asks for one again;
      otherwise the threads can come to rest with a server running. */
  lemma ShutdownIsFinalIff(states: seq<State>, events: seq<Event>, i: nat)
    requires Run(states, events) && states[0] == INITIAL && i < |events| && events[i].CallShutdown?
    ensures (forall n :: Reaches(states[i + 1], n) && AllIdle(n) ==> n.alive == {})
       <==> forall t: Thread :: !MayInsert(states[i], t)
    ensures forall t: Thread :: MayInsert(states[i], t) ==>
              exists n :: Reaches(states[i + 1], n) && AllIdle(n) && n.slot.Some? && n.slot.value in n.alive
  {
    InitialInvariant();
    RunKeepsInvariant(states, events, i + 1);
    assert Enabled(states[i], events[i]);
    ShutdownLeavesPlaces(states[i], events[i]);
    var s := states[i + 1];
    forall t: Thread | MayInsert(states[i], t)
      ensures exists n :: Reaches(s, n) && AllIdle(n) && n.slot.Some? && n.slot.value in n.alive
    {
      var n := LaunchCanLeaveServer(s, t);
    }
    if forall t: Thread :: !MayInsert(states[i], t) {
      assert Down(s);
      forall n | Reaches(s, n) && AllIdle(n)
        ensures n.alive == {}
      {
        DownEndsEmpty(s, n);
      }
    }
  }

  // ----- Two such runs --------------------------------------------------------

  const SPAWNING := State(None, Some(0), map[0 := Launching], {}, {})
  const STARTING := State(None, Some(0), map[0 := Starting(7)], {7}, {7})
  const SERVING := State(Some(7), None, map[0 := Idle], {7}, {7})

  lemma LaunchSteps()
    ensures After(After(After(INITIAL, CallStart(0)), Acquire(0)), Check(0)) == SPAWNING
    ensures After(SPAWNING, Spawns(0, 7)) == STARTING
    ensures After(After(STARTING, BecomesHealthy(0)), Insert(0)) == SERVING
    ensures After(SPAWNING, CallShutdown(1)) == SPAWNING && After(STARTING, CallShutdown(1)) == STARTING
  {
  }

  /** A shutdown during a launch finds nothing to stop, and the server it should have stopped
      is running when every thread is done. */
  lemma ShutdownDuringLaunchLeavesServer() returns (states: seq<State>, events: seq<Event>)
    ensures Run(states, events) && states[0] == INITIAL && |events| == 7 && events[4] == CallShutdown(1) &&
            states[4].alive == {7}
    ensures Last(states).slot == Some(7) && 7 in Last(states).alive && AllIdle(Last(states))
  {
    LaunchSteps();
    var called := After(INITIAL, CallStart(0));
    events := [CallStart(0), Acquire(0), Check(0), Spawns(0, 7), CallShutdown(1), BecomesHealthy(0), Insert(0)];
    states := [INITIAL, called, After(called, Acquire(0)), SPAWNING, STARTING, STARTING,
               After(STARTING, BecomesHealthy(0)), SERVING];
  }

  /** So does one that comes before the launch has spawned anything. */
  lemma ShutdownBeforeSpawnLeavesServer() returns (states: seq<State>, events: seq<Event>)
    ensures Run(states, events) && states[0] == INITIAL && |events| == 7 && events[3] == CallShutdown(1) &&
            states[3].alive == {}
    ensures Last(states).slot == Some(7) && 7 in Last(states).alive && AllIdle(Last(states))
  {
    LaunchSteps();
    var called := After(INITIAL, CallStart(0));
    events := [CallStart(0), Acquire(0), Check(0), CallShutdown(1), Spawns(0, 7), BecomesHealthy(0), Insert(0)];
    states := [INITIAL, called, After(called, Acquire(0)), SPAWNING, SPAWNING, STARTING,
               After(STARTING, BecomesHealthy(0)), SERVING];
  }
}
