/** Exactly when a discard is final. */
module EditDiscards {
  import opened Core
  import opened EditBasis
  import opened EditQueue
  import opened EditIdentity
  import opened EditServer
  import opened EditLists
  import opened EditRuns
  import opened EditKeeping
  import opened EditPromises

  /** The owner has this edit sent again. */
  predicate Reissues(e: Event, id: Id)
  {
    e.Choose? && (e.choice.Retry? || e.choice.Reviewed?) && e.edit.id == id
  }

  /** A run of the edit that can still write this list. */
  ghost predicate LiveRun(s: Queue, key: Scope, id: Id)
  {
    exists r :: r in s.runs && CanWrite(s, r, key, id)
  }

  predicate CanWrite(s: Queue, r: RunId, key: Scope, id: Id)
    requires r in s.runs
  {
    s.runs[r].edit.id == id && s.runs[r].key == key && Fenced(s, r) && s.runs[r].phase != Ended
  }

  /** A page that starts now would read the edit back. */
  ghost predicate InStorage(s: Queue, key: Scope, id: Id)
  {
    Named(RecoveredList(Stored(s, key), key), id)
  }

  ghost predicate Known(issued: map<Id, Identity>, id: Id)
  {
    exists op :: op in issued && issued[op].edit == id
  }

  ghost predicate Gone(s: Queue, key: Scope, id: Id)
  {
    && !Named(Visible(s, key), id) && !InStorage(s, key, id)
    && !LiveRun(s, key, id) && Known(s.issued, id)
  }

  // ----- Gone stays gone ------------------------------------------------------

  lemma KnownPersists(s: State, e: Event, id: Id)
    requires Enabled(s, e) && Known(s.queue.issued, id)
    ensures Known(After(s, e).queue.issued, id)
  {
    QueueStepKept(s, e);
    var op :| op in s.queue.issued && s.queue.issued[op].edit == id;
    assert After(s, e).queue.issued[op].edit == id;
  }

  /** No step writes the edit into this list again. */
  lemma NothingPutsItBack(s: State, e: Event, key: Scope, id: Id)
    requires Tidy(s.queue) && Listed(s.queue) && Enabled(s, e) && !Unsettling(e) && !Reissues(e, id)
    requires Gone(s.queue, key, id)
    ensures var w := StepWrite(Base(s.queue, e), e); w.Put? && w.key == key ==> w.edit.id != id
  {
    var q := s.queue;
    LoadedFields(q);
    match e
    case Send(r, other, op, content) => SentIsAnother(q, key, id, r, other, op, content);
    case Choose(edit, choice, r, first, second) => ChoiceWriteKey(Base(q, e), edit, choice, first, second);
    case Answered(r, answer) => RunIsAnother(q, s.server, key, id, r, answer);
    case Resumed(r, first, second) => ResumedRunIsAnother(q, key, id, r, first, second);
    case ListRead =>
    case Around(_) =>
    case Delivered(_, _) =>
  }

  lemma ResumedRunIsAnother(s: Queue, key: Scope, id: Id, r: RunId, first: Id, second: Id)
    requires Gone(s, key, id) && r in s.runs && s.runs[r].phase.Chosen?
    ensures var w := StepWrite(s, Resumed(r, first, second)); w.Put? && w.key == key ==> w.edit.id != id
  {
    ResumedWriteKey(s, s.runs[r], s.runs[r].phase.choice, first, second);
    assert !CanWrite(s, r, key, id);
  }

  lemma SentIsAnother(s: Queue, key: Scope, id: Id, r: RunId, other: Id, op: Id, content: Content)
    requires Gone(s, key, id) && FreshEdit(s, other)
    ensures var w := StepWrite(Loaded(s), Send(r, other, op, content)); w.Put? && w.key == key ==> w.edit.id != id
  {
    LoadedKeepsLists(s);
    LoadedFields(s);
    SentWriteKey(Loaded(s), r, other, op, content);
    assert ListOf(Loaded(s), s.scope) == Visible(s, s.scope);
    var known :| known in s.issued && s.issued[known].edit == id;
    assert other != id;
  }

  lemma RunIsAnother(s: Queue, server: Server, key: Scope, id: Id, r: RunId, answer: Answer)
    requires Gone(s, key, id) && AnswerEnabled(s, server, r, answer)
    ensures r in s.runs
    ensures var w := StepWrite(s, Answered(r, answer)); w.Put? && w.key == key ==> w.edit.id != id
  {
    AnsweredIsNotEnded(s, server, r, answer);
    AnswerWriteKey(s.runs[r], answer);
    assert !CanWrite(s, r, key, id);
  }

  lemma AnsweredIsNotEnded(s: Queue, server: Server, r: RunId, answer: Answer)
    requires AnswerEnabled(s, server, r, answer)
    ensures r in s.runs && s.runs[r].phase != Ended
  {
    match answer
    case BasisFetched(_) =>
    case Responded(_) =>
    case Lost =>
    case OkBody(_) =>
    case ErrorBody(_, _) =>
  }

  lemma ActorIsNotEnded(s: State, e: Event, r: RunId)
    requires Tidy(s.queue) && Enabled(s, e) && Actor(e) == Some(r) && r in s.queue.runs
    ensures s.queue.runs[r].phase != Ended
  {
    match e
    case Send(_, _, _, _) =>
    case Choose(_, _, _, _, _) =>
    case Answered(_, answer) => AnsweredIsNotEnded(s.queue, s.server, r, answer);
    case Resumed(_, _, _) =>
    case ListRead =>
    case Around(_) =>
    case Delivered(_, _) =>
  }

  lemma NoLiveRunAfter(s: State, e: Event, key: Scope, id: Id)
    requires Tidy(s.queue) && Listed(s.queue) && Enabled(s, e) && !Unsettling(e) && !Reissues(e, id)
    requires Gone(s.queue, key, id)
    ensures !LiveRun(After(s, e).queue, key, id)
  {
    var q, n := s.queue, After(s, e).queue;
    var w := StepWrite(Base(q, e), e);
    NothingPutsItBack(s, e, key, id);
    StepRuns(s, e);
    forall r | r in n.runs
      ensures !CanWrite(n, r, key, id)
    {
      assert RunAfter(q, n, w, Actor(e), r);
      if n.runs[r].edit.id == id && n.runs[r].key == key {
        assert r in q.runs && !CanWrite(q, r, key, id);
        if !Fenced(q, r) {
          SupersededStays(s, e, r);
        } else if Actor(e) == Some(r) {
          ActorIsNotEnded(s, e, r);
        }
      }
    }
  }

  lemma RecoveredNames(items: seq<Edit>, scope: Scope, id: Id)
    requires Named(RecoveredList(items, scope), id)
    ensures Named(items, id)
  {
    var e :| e in RecoveredList(items, scope) && e.id == id;
    var i := RecoveredElems(items, scope, e);
  }

  lemma StorageAfterWrite(b: Queue, n: Queue, w: Write, key: Scope, id: Id)
    requires Wrote(b, n, w) && !InStorage(b, key, id) && !Named(Visible(n, key), id)
    ensures !InStorage(n, key, id)
  {
    if InStorage(n, key, id) {
      RecoveredNames(Stored(n, key), key, id);
      WrittenNames(b, n, w, key, id);
    }
  }

  lemma StepKeepsGone(s: State, e: Event, key: Scope, id: Id)
    requires Tidy(s.queue) && Listed(s.queue) && Enabled(s, e) && !Reissues(e, id)
    requires Gone(s.queue, key, id)
    ensures Gone(After(s, e).queue, key, id)
  {
    KnownPersists(s, e, id);
    if Unsettling(e) {
      UnsettledGone(s.queue, e.ambient, key, id);
    } else {
      SettledGone(s, e, key, id);
      NoLiveRunAfter(s, e, key, id);
    }
  }

  lemma SettledGone(s: State, e: Event, key: Scope, id: Id)
    requires Tidy(s.queue) && Listed(s.queue) && Enabled(s, e) && !Reissues(e, id) && !Unsettling(e)
    requires Gone(s.queue, key, id)
    ensures !Named(Visible(After(s, e).queue, key), id) && !InStorage(After(s, e).queue, key, id)
  {
    var b := Base(s.queue, e);
    StepParts(s, e);
    NothingPutsItBack(s, e, key, id);
    GoneAfterWrite(s.queue, b, After(s, e).queue, StepWrite(b, e), key, id);
  }

  lemma GoneAfterWrite(s: Queue, b: Queue, n: Queue, w: Write, key: Scope, id: Id)
    requires Reads(s, b) && Wrote(b, n, w) && ReadBefore(b, w) && !Named(Visible(s, key), id) && !InStorage(s, key, id)
    requires w.Put? && w.key == key ==> w.edit.id != id
    ensures !Named(Visible(n, key), id) && !InStorage(n, key, id)
  {
    if Named(Visible(n, key), id) {
      NewInView(s, b, n, w, key, id);
    }
    assert Stored(b, key) == Stored(s, key);
    StorageAfterWrite(b, n, w, key, id);
  }

  lemma UnsettledGone(s: Queue, a: Ambient, key: Scope, id: Id)
    requires Gone(s, key, id) && (a.Reloaded? || a.Surroundings?)
    ensures var n := AfterAmbient(s, a);
            !Named(Visible(n, key), id) && !InStorage(n, key, id) && !LiveRun(n, key, id)
  {
    var n := AfterAmbient(s, a);
    assert Stored(n, key) == Stored(s, key);
    forall r | r in n.runs
      ensures !CanWrite(n, r, key, id)
    {
      assert !CanWrite(s, r, key, id);
    }
  }

  lemma {:induction false} GoneStaysGone(states: seq<State>, events: seq<Event>, key: Scope, id: Id, i: nat)
    requires History(states, events) && i < |states|
    requires Tidy(states[0].queue) && Listed(states[0].queue) && Gone(states[0].queue, key, id)
    requires forall e :: e in events ==> !Reissues(e, id)
    ensures Gone(states[i].queue, key, id)
  {
    if i > 0 {
      GoneStaysGone(states, events, key, id, i - 1);
      HistoryKeepsListed(states, events, i - 1);
      assert events[i - 1] in events && Enabled(states[i - 1], events[i - 1]);
      StepKeepsGone(states[i - 1], events[i - 1], key, id);
    }
  }

  // ----- The discard ----------------------------------------------------------

  /** Whatever happens next, short of the owner having the edit sent again, it is not seen in
      this list. */
  ghost predicate StaysGone(s: State, key: Scope, id: Id)
  {
    forall states: seq<State>, events: seq<Event>, i: nat ::
      History(states, events) && states[0] == s && (forall e :: e in events ==> !Reissues(e, id)) && i < |states| ==>
        !Named(Visible(states[i].queue, key), id)
  }

  lemma DiscardedLists(s: Queue, id: Id)
    ensures var n := Withdraw(Loaded(s).(shown := None), s.scope, id);
            && !Named(Visible(n, s.scope), id)
            && (InStorage(n, s.scope, id) <==> !s.storageWorks && InStorage(s, s.scope, id))
  {
    var items := Dropped(ListOf(Loaded(s), s.scope), id);
    var n := Withdraw(Loaded(s).(shown := None), s.scope, id);
    NamedDropped(ListOf(Loaded(s), s.scope), id, id);
    assert Visible(n, s.scope) == items;
    if s.storageWorks {
      assert Stored(n, s.scope) == items;
      if InStorage(n, s.scope, id) {
        RecoveredNames(items, s.scope, id);
      }
    } else {
      assert Stored(n, s.scope) == Stored(s, s.scope);
    }
  }

  lemma DiscardedRest(s: Queue, id: Id)
    ensures var n := Withdraw(Loaded(s).(shown := None), s.scope, id);
            && n.runs == s.runs && n.inFlight == s.inFlight && n.scope == s.scope
            && n.connection == s.connection && n.library == s.library && n.issued == s.issued
  {
  }

  lemma DiscardedState(s: Queue, edit: Edit, r: RunId, first: Id, second: Id)
    requires EditsGood(s) && edit in s.published && edit.id !in s.waiting
    ensures var n := ChoiceMade(s, edit, Discard, r, first, second);
            && !Named(Visible(n, s.scope), edit.id)
            && (InStorage(n, s.scope, edit.id) <==> !s.storageWorks && InStorage(s, s.scope, edit.id))
            && n.runs == s.runs && n.inFlight == s.inFlight && n.scope == s.scope
            && n.connection == s.connection && n.library == s.library
            && Known(n.issued, edit.id)
  {
    assert ChoiceMade(s, edit, Discard, r, first, second) == Withdraw(Loaded(s).(shown := None), s.scope, edit.id);
    DiscardedLists(s, edit.id);
    DiscardedRest(s, edit.id);
    assert Good(s.issued, edit);
    assert s.issued[edit.operation].edit == edit.id;
  }

  /** What the network can still say to a live run. */
  function LastWord(s: Queue, r: RunId): Answer
    requires r in s.runs
  {
    if s.runs[r].phase.ReadingOk? then OkBody(false)
    else if s.runs[r].phase.ReadingError? then ErrorBody("", None)
    else Lost
  }

  /** A live run puts the edit back when its reply is lost, unreadable or an error. */
  lemma LiveRunPutsBack(s: State, r: RunId, key: Scope, id: Id)
    requires r in s.queue.runs && CanWrite(s.queue, r, key, id) && !Waits(s.queue.runs[r].phase)
    ensures Enabled(s, Answered(r, LastWord(s.queue, r)))
    ensures Named(Visible(After(s, Answered(r, LastWord(s.queue, r))).queue, key), id)
  {
    var answer := LastWord(s.queue, r);
    AnswerWrites(s.queue, r, answer);
    AnswerWriteKey(s.queue.runs[r], answer);
    WrittenNames(s.queue, AfterAnswer(s.queue, r, answer), AnswerWrite(s.queue.runs[r], answer), key, id);
  }

  lemma OneMoreStep(s: State, e: Event, key: Scope, id: Id)
    requires Enabled(s, e) && !Reissues(e, id) && Named(Visible(After(s, e).queue, key), id)
    ensures !StaysGone(s, key, id)
  {
    var states, events := [s, After(s, e)], [e];
    assert History(states, events);
    assert Named(Visible(states[1].queue, key), id);
  }

  lemma ReloadPutsBack(s: State, key: Scope, id: Id)
    requires InStorage(s.queue, key, id)
    ensures !StaysGone(s, key, id)
  {
    var e := Around(Reloaded(key));
    assert Visible(After(s, e).queue, key) == RecoveredList(Stored(s.queue, key), key);
    OneMoreStep(s, e, key, id);
  }

  /** A discard from the review surface is final if and only if no run of the edit can still
      write this list and storage lets go of it: then the edit is never seen there again,
      unless its owner has it sent again. */
  lemma DiscardIsFinalIff(states: seq<State>, events: seq<Event>, i: nat)
    requires History(states, events) && states[0] == Initial(states[0].queue.scope) && i < |events|
    requires events[i].Choose? && events[i].choice.Discard? && events[i].edit.id !in states[i].queue.waiting
    ensures var q, id := states[i].queue, events[i].edit.id;
            StaysGone(states[i + 1], q.scope, id) <==>
              !LiveRun(q, q.scope, id) && (q.storageWorks || !InStorage(q, q.scope, id))
  {
    HistoryKeepsListed(states, events, i + 1);
    HistoryKeepsListed(states, events, i);
    InitialGood(states[0].queue.scope);
    HistoryKeepsEditsGood(states, events, i);
    assert Enabled(states[i], events[i]);
    DiscardAt(states[i], events[i]);
  }

  lemma DiscardAt(s: State, e: Event)
    requires Tidy(s.queue) && Listed(s.queue) && EditsGood(s.queue) && Enabled(s, e)
    requires e.Choose? && e.choice.Discard? && e.edit.id !in s.queue.waiting
    requires Tidy(After(s, e).queue) && Listed(After(s, e).queue)
    ensures StaysGone(After(s, e), s.queue.scope, e.edit.id) <==>
              !LiveRun(s.queue, s.queue.scope, e.edit.id) &&
                  (s.queue.storageWorks || !InStorage(s.queue, s.queue.scope, e.edit.id))
  {
    var q, n, key, id := s.queue, After(s, e), s.queue.scope, e.edit.id;
    DiscardedState(q, e.edit, e.run, e.first, e.second);
    assert n.queue == ChoiceMade(q, e.edit, Discard, e.run, e.first, e.second);
    if InStorage(n.queue, key, id) {
      ReloadPutsBack(n, key, id);
    } else if LiveRun(q, key, id) {
      var r :| r in q.runs && CanWrite(q, r, key, id);
      LiveIsNotWaiting(q, r);
      LiveRunPutsBack(n, r, key, id);
      OneMoreStep(n, Answered(r, LastWord(n.queue, r)), key, id);
    } else {
      SameRunsNoLive(q, n.queue, key, id);
      GoneIsFinal(n, key, id);
    }
  }

  lemma LiveIsNotWaiting(s: Queue, r: RunId)
    requires Tidy(s) && r in s.runs && s.runs[r].edit.id !in s.waiting
    ensures !Waits(s.runs[r].phase)
  {
  }

  lemma SameRunsNoLive(s: Queue, n: Queue, key: Scope, id: Id)
    requires !LiveRun(s, key, id) && n.runs == s.runs && n.connection == s.connection && n.library == s.library
    ensures !LiveRun(n, key, id)
  {
    forall r | r in n.runs
      ensures !CanWrite(n, r, key, id)
    {
      assert !CanWrite(s, r, key, id);
    }
  }

  // ----- The discard at an open question --------------------------------------

  /** The page once a run has carried out its owner's discard. */
  function Discarded(s: Queue, r: RunId): Queue
    requires r in s.runs
  {
    InPhase(Withdraw(Freed(s, r).(shown := None), s.runs[r].key, s.runs[r].edit.id), r, Ended)
  }

  lemma DiscardedByRun(s: Queue, r: RunId)
    requires Listed(s) && r in s.runs
    ensures var n, key, id := Discarded(s, r), s.runs[r].key, s.runs[r].edit.id;
            && !Named(Visible(n, key), id)
            && (InStorage(n, key, id) <==> !s.storageWorks && InStorage(s, key, id))
  {
    var n, key, id := Discarded(s, r), s.runs[r].key, s.runs[r].edit.id;
    var items := Dropped(ListOf(s, key), id);
    NamedDropped(ListOf(s, key), id, id);
    assert Visible(n, key) == items;
    if s.storageWorks {
      assert Stored(n, key) == items;
      if InStorage(n, key, id) {
        RecoveredNames(items, key, id);
      }
    } else {
      assert Stored(n, key) == Stored(s, key);
    }
  }

  /** The run that discarded was the edit's only one, and it is over. */
  lemma DiscardedIsOver(s: Queue, r: RunId)
    requires Tidy(s) && r in s.runs
    ensures !LiveRun(Discarded(s, r), s.runs[r].key, s.runs[r].edit.id) && Discarded(s, r).issued == s.issued
  {
    var n, key, id := Discarded(s, r), s.runs[r].key, s.runs[r].edit.id;
    forall o | o in n.runs
      ensures !CanWrite(n, o, key, id)
    {
      assert o in s.runs && n.runs[o].edit == s.runs[o].edit;
      assert o != r ==> s.runs[o].edit.id != id;
    }
  }

  /** A discard that its owner gives at an open question, and that a run of the current scope
      carries out, is final if and only if storage lets go of the edit. */
  lemma ChosenDiscardIsFinalIff(states: seq<State>, events: seq<Event>, i: nat)
    requires History(states, events) && states[0] == Initial(states[0].queue.scope) && i < |events| &&
             events[i].Resumed?
    requires var q, r := states[i].queue, events[i].run;
             r in q.runs && q.runs[r].phase == Chosen(Discard) && Fenced(q, r)
    ensures var q := states[i].queue;
            var run := q.runs[events[i].run];
            StaysGone(states[i + 1], run.key, run.edit.id) <==> q.storageWorks || !InStorage(q, run.key, run.edit.id)
  {
    HistoryKeepsListed(states, events, i + 1);
    HistoryKeepsListed(states, events, i);
    InitialGood(states[0].queue.scope);
    HistoryKeepsEditsGood(states, events, i);
    ChosenDiscardStep(states, events, i);
    ChosenDiscardAt(states[i], states[i + 1], events[i].run);
  }

  lemma ChosenDiscardStep(states: seq<State>, events: seq<Event>, i: nat)
    requires History(states, events) && i < |events| && events[i].Resumed?
    requires var q, r := states[i].queue, events[i].run;
             r in q.runs && q.runs[r].phase == Chosen(Discard) && Fenced(q, r)
    ensures states[i + 1].queue == Discarded(states[i].queue, events[i].run)
  {
    assert Enabled(states[i], events[i]);
  }

  lemma ChosenDiscardAt(s: State, n: State, r: RunId)
    requires Tidy(s.queue) && Listed(s.queue) && EditsGood(s.queue) && Tidy(n.queue) && Listed(n.queue)
    requires r in s.queue.runs && n.queue == Discarded(s.queue, r)
    ensures var run := s.queue.runs[r];
            StaysGone(n, run.key, run.edit.id) <==> s.queue.storageWorks || !InStorage(s.queue, run.key, run.edit.id)
  {
    var key, id := s.queue.runs[r].key, s.queue.runs[r].edit.id;
    DiscardedByRun(s.queue, r);
    DiscardedIsOver(s.queue, r);
    if InStorage(n.queue, key, id) {
      ReloadPutsBack(n, key, id);
    } else {
      assert Good(s.queue.issued, s.queue.runs[r].edit);
      assert s.queue.issued[s.queue.runs[r].edit.operation].edit == id;
      GoneIsFinal(n, key, id);
    }
  }

  lemma GoneIsFinal(s: State, key: Scope, id: Id)
    requires Tidy(s.queue) && Listed(s.queue) && Gone(s.queue, key, id)
    ensures StaysGone(s, key, id)
  {
    forall more: seq<State>, later: seq<Event>, j: nat
      | History(more, later) && more[0] == s && (forall f :: f in later ==> !Reissues(f, id)) && j < |more|
      ensures !Named(Visible(more[j].queue, key), id)
    {
      GoneStaysGone(more, later, key, id, j);
    }
  }
}
