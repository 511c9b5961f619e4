/** Runs and lists together: what a step makes of the runs, and that the entry a list holds
    under a run's id is that run's edit. */
module EditKeeping {
  import opened Core
  import opened EditBasis
  import opened EditQueue
  import opened EditIdentity
  import opened EditServer
  import opened EditLists
  import opened EditRuns

  // ----- Runs and what they write ---------------------------------------------

  /** Where a run of the next state comes from: the run that acts and has just written its
      edit, or the run it was. */
  ghost predicate RunAfter(s: Queue, n: Queue, w: Write, actor: Option<RunId>, o: RunId)
    requires o in n.runs
  {
    || (w.Put? && actor == Some(o) && n.runs[o].edit == w.edit && n.runs[o].key == w.key)
    || (&& o in s.runs && n.runs[o].edit == s.runs[o].edit && n.runs[o].key == s.runs[o].key
        && (actor == Some(o) || n.runs[o].phase == s.runs[o].phase ||
            (s.runs[o].phase.Asking? && n.runs[o].phase.Chosen?)))
  }

  ghost predicate RunsAfter(s: Queue, n: Queue, w: Write, actor: Option<RunId>)
  {
    && (forall o :: o in n.runs ==> RunAfter(s, n, w, actor, o))
    && (w.Put? ==> actor.Some? && actor.value in n.runs
                   && n.runs[actor.value].edit == w.edit && n.runs[actor.value].key == w.key)
  }

  lemma SameRunsAfter(s: Queue, n: Queue, w: Write, actor: Option<RunId>)
    requires n.runs == s.runs && !w.Put?
    ensures RunsAfter(s, n, w, actor)
  {
  }

  lemma RunsAfterFrom(s: Queue, m: Queue, n: Queue, w: Write, actor: Option<RunId>)
    requires m.runs == s.runs && RunsAfter(m, n, w, actor)
    ensures RunsAfter(s, n, w, actor)
  {
    forall o | o in n.runs
      ensures RunAfter(s, n, w, actor, o)
    {
      assert RunAfter(m, n, w, actor, o);
    }
  }

  lemma TouchedRunsAfter(s: Queue, n: Queue, r: RunId, w: Write)
    requires Touches(s, n, r)
    requires if w.Put? then n.runs[r].edit == w.edit && s.runs[r].key == w.key else n.runs[r].edit == s.runs[r].edit
    ensures RunsAfter(s, n, w, Some(r))
  {
  }

  lemma AttemptRuns(s: Queue, r: RunId)
    requires r in s.runs
    ensures RunsAfter(s, Attempt(s, r), Put(s.runs[r].key, Attempted(s, s.runs[r].edit)), Some(r))
  {
    AttemptTouches(s, r);
    TouchedRunsAfter(s, Attempt(s, r), r, Put(s.runs[r].key, Attempted(s, s.runs[r].edit)));
  }

  lemma ExecuteRuns(s: Queue, r: RunId, edit: Edit)
    requires r !in s.runs
    ensures RunsAfter(s, Execute(s, r, edit), Executed(s, edit), Some(r))
  {
    if edit.id in s.inFlight {
      SameRunsAfter(s, s, Nothing, Some(r));
    } else {
      var started := Started(s, r, edit);
      AttemptTouches(started, r);
    }
  }

  lemma FailedRuns(s: Queue, r: RunId, message: string, conflict: Option<Conflict>, recovery: Option<Basis>)
    requires r in s.runs
    ensures RunsAfter(s, Failed(s, r, message, conflict, recovery),
                      Put(s.runs[r].key, s.runs[r].edit.(message := message, conflict := conflict,
                                                         recovery := recovery)), Some(r))
  {
    FailedTouches(s, r, message, conflict, recovery);
    TouchedRunsAfter(s, Failed(s, r, message, conflict, recovery), r,
                     Put(s.runs[r].key, s.runs[r].edit.(message := message, conflict := conflict,
                                                        recovery := recovery)));
  }

  lemma PhaseRuns(s: Queue, r: RunId, phase: Phase, w: Write)
    requires r in s.runs && !w.Put?
    ensures RunsAfter(s, InPhase(s, r, phase), w, Some(r))
  {
    PhaseTouches(s, r, phase);
    TouchedRunsAfter(s, InPhase(s, r, phase), r, w);
  }

  lemma AnswerRuns(s: Queue, r: RunId, answer: Answer)
    requires r in s.runs
    ensures RunsAfter(s, AfterAnswer(s, r, answer), AnswerWrite(s.runs[r], answer), Some(r))
  {
    match answer
    case BasisFetched(basis) => FailedRuns(s, r, if basis.Some? then REVIEW_FIRST else NO_OPENING, None, basis);
    case Responded(ok) => PhaseRuns(s, r, if ok then ReadingOk else ReadingError, Nothing);
    case Lost => FailedRuns(s, r, UNCONFIRMED, None, None);
    case OkBody(readable) =>
      FailedRuns(s, r, UNCONFIRMED, None, None);
      AcceptedTouches(s, r);
      TouchedRunsAfter(s, Accepted(s, r), r, Drop(s.runs[r].key, s.runs[r].edit.id));
    case ErrorBody(message, conflict) => FailedRuns(s, r, message, conflict, None);
  }

  lemma EndedRuns(s: Queue, m: Queue, r: RunId, w: Write)
    requires r in s.runs && m.runs == s.runs && !w.Put?
    ensures RunsAfter(s, InPhase(m, r, Ended), w, Some(r))
  {
    PhaseRuns(m, r, Ended, w);
    RunsAfterFrom(s, m, InPhase(m, r, Ended), w, Some(r));
  }

  lemma RevisedRuns(s: Queue, r: RunId, first: Id, second: Id)
    requires r in s.runs
    ensures RunsAfter(s, Attempt(Revised(s, r, first, second), r),
                      Put(s.runs[r].key, Attempted(s, ReviewedEdit(s.runs[r].edit, first, second))), Some(r))
  {
    var revised := Revised(s, r, first, second);
    AttemptTouches(revised, r);
    assert TouchedRun(s.runs, revised.runs, r) && revised.blocked == s.blocked;
    TouchesTwice(s, revised, Attempt(revised, r), r);
    TouchedRunsAfter(s, Attempt(revised, r), r, Put(s.runs[r].key,
                                                    Attempted(s, ReviewedEdit(s.runs[r].edit, first, second))));
  }

  lemma AfterChoiceRuns(s: Queue, r: RunId, choice: Choice, first: Id, second: Id)
    requires r in s.runs
    ensures RunsAfter(s, AfterChoice(s, r, choice, first, second), ResumedWrite(s, s.runs[r], choice, first, second),
                      Some(r))
  {
    match choice
    case Keep => EndedRuns(s, Publish(s.(shown := None), s.runs[r].key, ListOf(s, s.runs[r].key)), r,
                           Rewrite(s.runs[r].key));
    case Discard =>
      EndedRuns(s, Withdraw(s.(shown := None), s.runs[r].key, s.runs[r].edit.id), r,
                Drop(s.runs[r].key, s.runs[r].edit.id));
    case Retry => AttemptRuns(s, r);
    case Reviewed => RevisedRuns(s, r, first, second);
  }

  lemma ContinuedRuns(s: Queue, r: RunId, first: Id, second: Id)
    requires r in s.runs && s.runs[r].phase.Chosen?
    ensures RunsAfter(s, Continued(s, r, first, second), StepWrite(s, Resumed(r, first, second)), Some(r))
  {
    if Fenced(s, r) {
      CurrentRuns(s, r, s.runs[r].phase.choice, first, second);
    } else {
      EndedRuns(s, Freed(s, r), r, Nothing);
    }
  }

  lemma CurrentRuns(s: Queue, r: RunId, choice: Choice, first: Id, second: Id)
    requires r in s.runs && s.runs[r].phase == Chosen(choice) && Fenced(s, r)
    ensures RunsAfter(s, Continued(s, r, first, second), ResumedWrite(s, s.runs[r], choice, first, second), Some(r))
  {
    var freed := Freed(s, r);
    AfterChoiceRuns(freed, r, choice, first, second);
    assert ResumedWrite(freed, freed.runs[r], choice, first, second) ==
           ResumedWrite(s, s.runs[r], choice, first, second);
    RunsAfterFrom(s, freed, AfterChoice(freed, r, choice, first, second),
                  ResumedWrite(s, s.runs[r], choice, first, second), Some(r));
  }

  lemma SentRuns(s: Queue, r: RunId, id: Id, op: Id, content: Content)
    requires r !in s.runs
    ensures RunsAfter(s, Sent(s, r, id, op, content), StepWrite(Loaded(s), Send(r, id, op, content)), Some(r))
  {
    var loaded := Loaded(s);
    match Match(ListOf(loaded, s.scope), content)
    case Some(pending) => ExecuteRunsFrom(s, loaded, r, pending);
    case None =>
      ExecuteRunsFrom(s, loaded.(issued := loaded.issued[op := Identity(id, content)]), r,
                      Edit(id, content, op, "", None, None));
  }

  lemma ExecuteRunsFrom(s: Queue, m: Queue, r: RunId, edit: Edit)
    requires m.runs == s.runs && r !in s.runs
    ensures RunsAfter(s, Execute(m, r, edit), Executed(m, edit), Some(r))
  {
    ExecuteRuns(m, r, edit);
    RunsAfterFrom(s, m, Execute(m, r, edit), Executed(m, edit), Some(r));
  }

  lemma ChoiceRuns(s: Queue, edit: Edit, choice: Choice, r: RunId, first: Id, second: Id)
    requires r !in s.runs
    ensures var e := Choose(edit, choice, r, first, second);
            RunsAfter(s, ChoiceMade(s, edit, choice, r, first, second), StepWrite(Base(s, e), e), Some(r))
  {
    if edit.id in s.waiting {
      WaiterRuns(s, edit.id, choice, r);
    } else if choice.Keep? || choice.Discard? {
      DismissalRuns(s, edit, choice, r, first, second);
    } else {
      StartedRuns(s, edit, choice, r, first, second);
    }
  }

  lemma DismissalRuns(s: Queue, edit: Edit, choice: Choice, r: RunId, first: Id, second: Id)
    requires edit.id !in s.waiting && (choice.Keep? || choice.Discard?)
    ensures var e := Choose(edit, choice, r, first, second);
            RunsAfter(s, ChoiceMade(s, edit, choice, r, first, second), StepWrite(Base(s, e), e), Some(r))
  {
    if choice.Keep? {
      KeptRuns(s, r);
    } else {
      DiscardedRuns(s, edit.id, r);
    }
  }

  lemma StartedRuns(s: Queue, edit: Edit, choice: Choice, r: RunId, first: Id, second: Id)
    requires r !in s.runs && edit.id !in s.waiting && (choice.Retry? || choice.Reviewed?)
    ensures var e := Choose(edit, choice, r, first, second);
            RunsAfter(s, ChoiceMade(s, edit, choice, r, first, second), StepWrite(Base(s, e), e), Some(r))
  {
    if choice.Retry? {
      ExecuteRuns(s, r, edit);
    } else {
      ReviewedRuns(s, edit, r, first, second);
    }
  }

  lemma WaiterRuns(s: Queue, id: Id, choice: Choice, r: RunId)
    requires id in s.waiting
    ensures RunsAfter(s, if InRun(s, s.waiting[id], Asking) then InPhase(s, s.waiting[id], Chosen(choice)) else s,
                      Nothing, Some(r))
  {
  }

  lemma KeptRuns(s: Queue, r: RunId)
    ensures RunsAfter(s, Publish(Loaded(s).(shown := None), s.scope, ListOf(Loaded(s), s.scope)), Rewrite(s.scope),
                      Some(r))
  {
    SameRunsAfter(s, Publish(Loaded(s).(shown := None), s.scope, ListOf(Loaded(s), s.scope)), Rewrite(s.scope),
                  Some(r));
  }

  lemma DiscardedRuns(s: Queue, id: Id, r: RunId)
    ensures RunsAfter(s, Withdraw(Loaded(s).(shown := None), s.scope, id), Drop(s.scope, id), Some(r))
  {
    SameRunsAfter(s, Withdraw(Loaded(s).(shown := None), s.scope, id), Drop(s.scope, id), Some(r));
  }

  lemma ReviewedRuns(s: Queue, edit: Edit, r: RunId, first: Id, second: Id)
    requires r !in s.runs
    ensures RunsAfter(s, Execute(ReviewedState(s, edit, first, second), r, ReviewedEdit(edit, first, second)),
                      Executed(s, ReviewedEdit(edit, first, second)), Some(r))
  {
    ExecuteRunsFrom(s, ReviewedState(s, edit, first, second), r, ReviewedEdit(edit, first, second));
  }

  lemma AmbientRuns(s: Queue, a: Ambient)
    requires AmbientEnabled(s, a)
    ensures RunsAfter(s, AfterAmbient(s, a), Nothing, None)
  {
    match a
    case Reaped(r) =>
    case ConnectionAdvanced(scope) =>
    case LibraryAdvanced(scope) =>
    case Opened(id) =>
    case Reloaded(scope) =>
    case Surroundings(listening, blocked, storageWorks) =>
  }

  lemma StepRuns(s: State, e: Event)
    requires Tidy(s.queue) && Enabled(s, e)
    ensures RunsAfter(s.queue, After(s, e).queue, StepWrite(Base(s.queue, e), e), Actor(e))
  {
    var q := s.queue;
    match e
    case Send(r, id, op, content) => SentRuns(q, r, id, op, content);
    case Choose(edit, choice, r, first, second) => ChoiceRuns(q, edit, choice, r, first, second);
    case Answered(r, answer) =>
      if Fenced(q, r) {
        AnswerRuns(q, r, answer);
      } else {
        EndedRuns(q, q, r, Nothing);
      }
    case Resumed(r, first, second) => ContinuedRuns(q, r, first, second);
    case ListRead => SameRunsAfter(q, Loaded(q), Nothing, None);
    case Around(a) => AmbientRuns(q, a);
    case Delivered(_, _) => SameRunsAfter(q, q, Nothing, None);
  }

  // ----- A run's edit is the listed one ---------------------------------------

  /** The list a run writes has been read, and an entry it holds under the run's id is the
      run's edit. */
  ghost predicate Listed(s: Queue)
  {
    forall r :: r in s.runs ==>
      && s.runs[r].key in s.retained
      && forall e :: e in s.retained[s.runs[r].key] && e.id == s.runs[r].edit.id ==> e == s.runs[r].edit
  }

  lemma PutListed(s: Queue, key: Scope, edit: Edit, e: Edit)
    ensures e in Dropped(ListOf(s, key), edit.id) + [edit] <==> e == edit || (e in ListOf(s, key) && e.id != edit.id)
  {
    DroppedElems(ListOf(s, key), edit.id);
  }

  /** What a write leaves in a list: the edit it puts, and entries that were there. */
  lemma WrittenEntries(s: Queue, n: Queue, w: Write, key: Scope, e: Edit)
    requires Wrote(s, n, w) && key in n.retained && e in n.retained[key]
    ensures (w.Put? && w.key == key && e == w.edit) || (e in ListOf(s, key) &&
                                                        (w.Put? && w.key == key ==> e.id != w.edit.id))
  {
    match w
    case Nothing =>
    case Rewrite(k) =>
    case Put(k, edit) => PutListed(s, k, edit, e);
    case Drop(k, id) => DroppedElems(ListOf(s, k), id);
  }

  lemma WriteKeepsKeys(s: Queue, n: Queue, w: Write)
    requires Wrote(s, n, w)
    ensures s.retained.Keys <= n.retained.Keys
    ensures w.Put? ==> w.key in n.retained
  {
  }

  lemma WriteListed(s: Queue, b: Queue, n: Queue, w: Write, actor: Option<RunId>)
    requires Listed(s) && Tidy(s) && OneRunEach(n.runs, n.inFlight, n.usedRuns)
    requires forall key :: key in s.retained ==> key in b.retained && b.retained[key] == s.retained[key]
    requires Wrote(b, n, w) && RunsAfter(s, n, w, actor)
    ensures Listed(n)
  {
    WriteKeepsKeys(b, n, w);
    RunListsRead(s, n, w, actor);
    forall r, e | r in n.runs && e in n.retained[n.runs[r].key] && e.id == n.runs[r].edit.id
      ensures e == n.runs[r].edit
    {
      WrittenEntries(b, n, w, n.runs[r].key, e);
      EntryIsRunsEdit(s, b, n, w, actor, r, e);
    }
  }

  lemma RunListsRead(s: Queue, n: Queue, w: Write, actor: Option<RunId>)
    requires Listed(s) && s.retained.Keys <= n.retained.Keys && (w.Put? ==> w.key in n.retained) &&
             RunsAfter(s, n, w, actor)
    ensures forall r :: r in n.runs ==> n.runs[r].key in n.retained
  {
    forall r | r in n.runs
      ensures n.runs[r].key in n.retained
    {
      assert RunAfter(s, n, w, actor, r);
    }
  }

  lemma EntryIsRunsEdit(s: Queue, b: Queue, n: Queue, w: Write, actor: Option<RunId>, r: RunId, e: Edit)
    requires Listed(s) && OneRunEach(n.runs, n.inFlight, n.usedRuns) && RunsAfter(s, n, w, actor)
    requires forall key :: key in s.retained ==> key in b.retained && b.retained[key] == s.retained[key]
    requires r in n.runs && e.id == n.runs[r].edit.id
    requires (w.Put? && w.key == n.runs[r].key && e == w.edit)
          || (e in ListOf(b, n.runs[r].key) && (w.Put? && w.key == n.runs[r].key ==> e.id != w.edit.id))
    ensures e == n.runs[r].edit
  {
    assert RunAfter(s, n, w, actor, r);
    if w.Put? && e == w.edit {
      assert n.runs[actor.value].edit.id == n.runs[r].edit.id;
    }
  }
}
