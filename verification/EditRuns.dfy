/** Runs: one per edit, fenced by the scope they started in, and writing before they send. */
module EditRuns {
  import opened Core
  import opened EditBasis
  import opened EditQueue
  import opened EditIdentity
  import opened EditServer
  import opened EditLists

  // ----- One run per edit -----------------------------------------------------

  predicate Waits(phase: Phase)
  {
    phase.Asking? || phase.Chosen?
  }

  /** `inFlight` and `runs` are two views of one table. */
  ghost predicate OneRunEach(runs: map<RunId, Run>, inFlight: map<Id, RunId>, used: set<RunId>)
  {
    && (forall r :: r in runs ==> r in used && runs[r].edit.id in inFlight && inFlight[runs[r].edit.id] == r)
    && (forall id :: id in inFlight ==> inFlight[id] in runs && runs[inFlight[id]].edit.id == id)
  }

  /** The runs that wait for an owner are exactly those in `waiting`; a run that has taken
      its answer (`moving`) is between the two. */
  ghost predicate WaitersListed(runs: map<RunId, Run>, waiting: map<Id, RunId>, moving: Option<RunId>)
  {
    && (forall id :: id in waiting ==>
          && waiting[id] in runs && runs[waiting[id]].edit.id == id
          && Some(waiting[id]) != moving && Waits(runs[waiting[id]].phase))
    && (forall r :: r in runs && Some(r) != moving && Waits(runs[r].phase) ==>
          runs[r].edit.id in waiting && waiting[runs[r].edit.id] == r)
  }

  /** No run is ahead of the counters, and one that is still current writes the list of the
      scope that is active. */
  ghost predicate Within(runs: map<RunId, Run>, connection: nat, library: nat, scope: Scope)
  {
    forall r :: r in runs ==>
      && runs[r].connection <= connection && runs[r].library <= library
      && (runs[r].connection == connection && runs[r].library == library ==> runs[r].key == scope)
  }

  ghost predicate TidyBut(s: Queue, moving: Option<RunId>)
  {
    && OneRunEach(s.runs, s.inFlight, s.usedRuns)
    && WaitersListed(s.runs, s.waiting, moving)
    && Within(s.runs, s.connection, s.library, s.scope)
  }

  ghost predicate Tidy(s: Queue)
  {
    TidyBut(s, None)
  }

  /** Nothing but run `r`'s phase and its edit's other fields has changed. */
  ghost predicate TouchedRun(runs: map<RunId, Run>, next: map<RunId, Run>, r: RunId)
  {
    && r in runs && r in next && next == runs[r := next[r]]
    && next[r] == runs[r].(edit := next[r].edit, phase := next[r].phase)
    && next[r].edit.id == runs[r].edit.id
  }

  ghost predicate SameTables(s: Queue, n: Queue)
  {
    && n.inFlight == s.inFlight && n.usedRuns == s.usedRuns
    && n.connection == s.connection && n.library == s.library && n.scope == s.scope
  }

  ghost predicate Touches(s: Queue, n: Queue, r: RunId)
  {
    TouchedRun(s.runs, n.runs, r) && SameTables(s, n)
  }

  lemma TouchOneRunEach(runs: map<RunId, Run>, next: map<RunId, Run>, r: RunId, inFlight: map<Id, RunId>,
                        used: set<RunId>)
    requires OneRunEach(runs, inFlight, used) && TouchedRun(runs, next, r)
    ensures OneRunEach(next, inFlight, used)
  {
  }

  lemma TouchWaiters(runs: map<RunId, Run>, next: map<RunId, Run>, r: RunId, waiting: map<Id, RunId>,
                     inFlight: map<Id, RunId>, used: set<RunId>)
    requires OneRunEach(runs, inFlight, used)
    requires WaitersListed(runs, waiting, Some(r)) && TouchedRun(runs, next, r) && !next[r].phase.Chosen?
    ensures WaitersListed(next, if next[r].phase.Asking? then waiting[next[r].edit.id := r] else waiting, None)
  {
  }

  lemma TouchKeepsTidy(s: Queue, n: Queue, r: RunId)
    requires TidyBut(s, Some(r)) && Touches(s, n, r) && !n.runs[r].phase.Chosen?
    requires n.waiting == (if n.runs[r].phase.Asking? then s.waiting[n.runs[r].edit.id := r] else s.waiting)
    ensures Tidy(n)
  {
    TouchOneRunEach(s.runs, n.runs, r, s.inFlight, s.usedRuns);
    TouchWaiters(s.runs, n.runs, r, s.waiting, s.inFlight, s.usedRuns);
  }

  /** A run that is not waiting can be taken up as it is. */
  lemma TakenUp(s: Queue, r: RunId)
    requires Tidy(s) && r in s.runs && !Waits(s.runs[r].phase)
    ensures TidyBut(s, Some(r))
  {
  }

  /** One that was just answered, once it is freed. */
  lemma FreedUp(s: Queue, r: RunId)
    requires Tidy(s) && r in s.runs && Waits(s.runs[r].phase)
    ensures TidyBut(Freed(s, r), Some(r))
  {
    FreedWaiters(s.runs, s.waiting, r, s.inFlight, s.usedRuns);
  }

  lemma FreedWaiters(runs: map<RunId, Run>, waiting: map<Id, RunId>, r: RunId, inFlight: map<Id, RunId>,
                     used: set<RunId>)
    requires OneRunEach(runs, inFlight, used) && WaitersListed(runs, waiting, None) && r in runs
    ensures WaitersListed(runs, waiting - {runs[r].edit.id}, Some(r))
  {
  }

  lemma PhaseTouches(s: Queue, r: RunId, phase: Phase)
    requires r in s.runs
    ensures Touches(s, InPhase(s, r, phase), r) && InPhase(s, r, phase).waiting == s.waiting
    ensures InPhase(s, r, phase).runs[r] == s.runs[r].(phase := phase)
  {
  }

  lemma RefuseTouches(s: Queue, r: RunId)
    requires r in s.runs
    ensures Touches(s, Refuse(s, r), r) && Refuse(s, r).waiting == s.waiting
    ensures Refuse(s, r).runs[r] == s.runs[r].(phase := Ended, edit := s.runs[r].edit.(message := BLOCKED))
  {
  }

  lemma TransmitTouches(s: Queue, r: RunId)
    requires r in s.runs
    ensures Touches(s, Transmit(s, r), r) && Transmit(s, r).waiting == s.waiting
    ensures Transmit(s, r).runs[r] == s.runs[r].(phase := AwaitingResponse)
  {
  }

  lemma AttemptTouches(s: Queue, r: RunId)
    requires r in s.runs
    ensures Touches(s, Attempt(s, r), r) && Attempt(s, r).waiting == s.waiting && !Waits(Attempt(s, r).runs[r].phase)
    ensures Attempt(s, r).runs[r].edit == Attempted(s, s.runs[r].edit)
  {
    var edit := s.runs[r].edit;
    var kept := Retain(s, s.runs[r].key, edit);
    if s.blocked {
      RefuseTouches(kept, r);
    } else if edit.content.basis.None? || !ValidBasis(edit.content.basis.value) {
      PhaseTouches(kept, r, Recovering);
    } else {
      TransmitTouches(kept, r);
    }
  }

  lemma AttemptTidy(s: Queue, r: RunId)
    requires TidyBut(s, Some(r)) && r in s.runs
    ensures Tidy(Attempt(s, r))
  {
    AttemptTouches(s, r);
    TouchKeepsTidy(s, Attempt(s, r), r);
  }

  lemma StartOneRunEach(runs: map<RunId, Run>, inFlight: map<Id, RunId>, used: set<RunId>, r: RunId, run: Run)
    requires OneRunEach(runs, inFlight, used) && r !in used && run.edit.id !in inFlight
    ensures OneRunEach(runs[r := run], inFlight[run.edit.id := r], used + {r})
  {
  }

  lemma StartWaiters(runs: map<RunId, Run>, waiting: map<Id, RunId>, r: RunId, run: Run)
    requires WaitersListed(runs, waiting, None) && r !in runs
    ensures WaitersListed(runs[r := run], waiting, Some(r))
  {
  }

  lemma StartedTidy(s: Queue, r: RunId, edit: Edit)
    requires Tidy(s) && r !in s.usedRuns && edit.id !in s.inFlight
    ensures TidyBut(Started(s, r, edit), Some(r))
  {
    var run := Run(edit, s.scope, s.connection, s.library, Recovering);
    StartOneRunEach(s.runs, s.inFlight, s.usedRuns, r, run);
    StartWaiters(s.runs, s.waiting, r, run);
  }

  lemma ExecuteTidy(s: Queue, r: RunId, edit: Edit)
    requires Tidy(s) && r !in s.usedRuns
    ensures Tidy(Execute(s, r, edit))
  {
    if edit.id !in s.inFlight {
      StartedTidy(s, r, edit);
      AttemptTidy(Started(s, r, edit), r);
    }
  }

  lemma FailedTouches(s: Queue, r: RunId, message: string, conflict: Option<Conflict>, recovery: Option<Basis>)
    requires r in s.runs
    ensures var n := Failed(s, r, message, conflict, recovery);
            && Touches(s, n, r) && !n.runs[r].phase.Chosen? && n.requests == s.requests
            && n.waiting == (if n.runs[r].phase.Asking? then s.waiting[n.runs[r].edit.id := r] else s.waiting)
  {
    var edit := s.runs[r].edit.(message := message, conflict := conflict, recovery := recovery);
    var kept := Retain(WithEdit(s.(shown := Some(edit.id)), r, edit), s.runs[r].key, edit);
    assert Touches(s, kept, r) && kept.waiting == s.waiting && kept.requests == s.requests &&
           kept.listening == s.listening;
    PhaseTouches(kept, r, Asking);
    PhaseTouches(kept, r, Ended);
    TouchesTwice(s, kept, InPhase(kept, r, if s.listening then Asking else Ended), r);
  }

  lemma TouchesTwice(a: Queue, b: Queue, c: Queue, r: RunId)
    requires Touches(a, b, r) && Touches(b, c, r)
    ensures Touches(a, c, r)
  {
  }

  lemma FailedTidy(s: Queue, r: RunId, message: string, conflict: Option<Conflict>, recovery: Option<Basis>)
    requires TidyBut(s, Some(r)) && r in s.runs
    ensures Tidy(Failed(s, r, message, conflict, recovery))
  {
    FailedTouches(s, r, message, conflict, recovery);
    TouchKeepsTidy(s, Failed(s, r, message, conflict, recovery), r);
  }

  lemma AcceptedTouches(s: Queue, r: RunId)
    requires r in s.runs
    ensures Touches(s, Accepted(s, r), r) && Accepted(s, r).waiting == s.waiting &&
            Accepted(s, r).requests == s.requests
    ensures Accepted(s, r).runs[r] == s.runs[r].(phase := Ended)
  {
  }

  lemma AcceptedTidy(s: Queue, r: RunId)
    requires TidyBut(s, Some(r)) && r in s.runs
    ensures Tidy(Accepted(s, r))
  {
    AcceptedTouches(s, r);
    TouchKeepsTidy(s, Accepted(s, r), r);
  }

  lemma PhaseTidy(s: Queue, r: RunId, phase: Phase)
    requires TidyBut(s, Some(r)) && r in s.runs && !Waits(phase)
    ensures Tidy(InPhase(s, r, phase))
  {
    PhaseTouches(s, r, phase);
    TouchKeepsTidy(s, InPhase(s, r, phase), r);
  }

  /** The runs, and what indexes them, are the same. */
  ghost predicate SameRuns(s: Queue, n: Queue)
  {
    n.runs == s.runs && n.waiting == s.waiting && SameTables(s, n)
  }

  lemma SameRunsTidy(s: Queue, n: Queue)
    requires Tidy(s) && SameRuns(s, n)
    ensures Tidy(n)
  {
  }

  lemma AnswerTidy(s: Queue, r: RunId, answer: Answer)
    requires TidyBut(s, Some(r)) && r in s.runs
    ensures Tidy(AfterAnswer(s, r, answer))
  {
    match answer
    case BasisFetched(basis) => FailedTidy(s, r, if basis.Some? then REVIEW_FIRST else NO_OPENING, None, basis);
    case Responded(ok) => PhaseTidy(s, r, if ok then ReadingOk else ReadingError);
    case Lost => FailedTidy(s, r, UNCONFIRMED, None, None);
    case OkBody(readable) => BodyTidy(s, r, readable);
    case ErrorBody(message, conflict) => FailedTidy(s, r, message, conflict, None);
  }

  lemma BodyTidy(s: Queue, r: RunId, readable: bool)
    requires TidyBut(s, Some(r)) && r in s.runs
    ensures Tidy(if readable then Accepted(s, r) else Failed(s, r, UNCONFIRMED, None, None))
  {
    if readable {
      AcceptedTidy(s, r);
    } else {
      FailedTidy(s, r, UNCONFIRMED, None, None);
    }
  }

  lemma RevisedTidy(s: Queue, r: RunId, first: Id, second: Id)
    requires TidyBut(s, Some(r)) && r in s.runs
    ensures TidyBut(Revised(s, r, first, second), Some(r))
  {
    var n := Revised(s, r, first, second);
    assert TouchedRun(s.runs, n.runs, r);
    TouchOneRunEach(s.runs, n.runs, r, s.inFlight, s.usedRuns);
  }

  lemma PhaseTidyAgain(s: Queue, n: Queue, r: RunId)
    requires TidyBut(s, Some(r)) && r in s.runs && SameRuns(s, n)
    ensures Tidy(InPhase(n, r, Ended))
  {
    PhaseTidy(n, r, Ended);
  }

  lemma AfterChoiceTidy(s: Queue, r: RunId, choice: Choice, first: Id, second: Id)
    requires TidyBut(s, Some(r)) && r in s.runs
    ensures Tidy(AfterChoice(s, r, choice, first, second))
  {
    match choice
    case Keep => PhaseTidyAgain(s, Publish(s.(shown := None), s.runs[r].key, ListOf(s, s.runs[r].key)), r);
    case Discard => PhaseTidyAgain(s, Withdraw(s.(shown := None), s.runs[r].key, s.runs[r].edit.id), r);
    case Retry => AttemptTidy(s, r);
    case Reviewed =>
      RevisedTidy(s, r, first, second);
      AttemptTidy(Revised(s, r, first, second), r);
  }

  lemma ContinuedTidy(s: Queue, r: RunId, first: Id, second: Id)
    requires Tidy(s) && r in s.runs && s.runs[r].phase.Chosen?
    ensures Tidy(Continued(s, r, first, second))
  {
    FreedUp(s, r);
    if Fenced(s, r) {
      AfterChoiceTidy(Freed(s, r), r, s.runs[r].phase.choice, first, second);
    } else {
      PhaseTidy(Freed(s, r), r, Ended);
    }
  }

  lemma IssuedExecuteTidy(s: Queue, r: RunId, op: Id, edit: Edit)
    requires Tidy(s) && r !in s.usedRuns
    ensures Tidy(Execute(s.(issued := s.issued[op := Identity(edit.id, edit.content)]), r, edit))
  {
    var issued := s.(issued := s.issued[op := Identity(edit.id, edit.content)]);
    SameRunsTidy(s, issued);
    ExecuteTidy(issued, r, edit);
  }

  lemma LoadedTidy(s: Queue)
    requires Tidy(s)
    ensures Tidy(Loaded(s)) && Loaded(s).usedRuns == s.usedRuns
  {
    SameRunsTidy(s, Loaded(s));
  }

  lemma SentTidy(s: Queue, r: RunId, id: Id, op: Id, content: Content)
    requires Tidy(s) && r !in s.usedRuns
    ensures Tidy(Sent(s, r, id, op, content))
  {
    var loaded := Loaded(s);
    LoadedTidy(s);
    match Match(ListOf(loaded, s.scope), content)
    case Some(pending) => ExecuteTidy(loaded, r, pending);
    case None => IssuedExecuteTidy(loaded, r, op, Edit(id, content, op, "", None, None));
  }

  lemma KeptTidy(s: Queue)
    requires Tidy(s)
    ensures Tidy(Publish(Loaded(s).(shown := None), s.scope, ListOf(Loaded(s), s.scope)))
  {
    LoadedTidy(s);
    SameRunsTidy(Loaded(s), Publish(Loaded(s).(shown := None), s.scope, ListOf(Loaded(s), s.scope)));
  }

  lemma DiscardedTidy(s: Queue, id: Id)
    requires Tidy(s)
    ensures Tidy(Withdraw(Loaded(s).(shown := None), s.scope, id))
  {
    LoadedTidy(s);
    SameRunsTidy(Loaded(s), Withdraw(Loaded(s).(shown := None), s.scope, id));
  }

  lemma ReviewTidy(s: Queue, edit: Edit, r: RunId, first: Id, second: Id)
    requires Tidy(s) && r !in s.usedRuns
    ensures Tidy(Execute(ReviewedState(s, edit, first, second), r, ReviewedEdit(edit, first, second)))
  {
    var reviewed := ReviewedState(s, edit, first, second);
    SameRunsTidy(s, reviewed);
    ExecuteTidy(reviewed, r, ReviewedEdit(edit, first, second));
  }

  lemma ChoiceTidy(s: Queue, edit: Edit, choice: Choice, r: RunId, first: Id, second: Id)
    requires Tidy(s) && r !in s.usedRuns
    ensures Tidy(ChoiceMade(s, edit, choice, r, first, second))
  {
    if edit.id in s.waiting {
      AnswerWaiterTidy(s, edit.id, choice);
    } else {
      match choice
      case Keep => KeptTidy(s);
      case Discard => DiscardedTidy(s, edit.id);
      case Retry => ExecuteTidy(s, r, edit);
      case Reviewed => ReviewTidy(s, edit, r, first, second);
    }
  }

  lemma AnswerWaiterTidy(s: Queue, id: Id, choice: Choice)
    requires Tidy(s) && id in s.waiting
    ensures Tidy(InPhase(s, s.waiting[id], Chosen(choice)))
  {
    var r := s.waiting[id];
    var n := InPhase(s, r, Chosen(choice));
    PhaseTouches(s, r, Chosen(choice));
    TouchOneRunEach(s.runs, n.runs, r, s.inFlight, s.usedRuns);
    AnsweredWaiters(s.runs, s.waiting, r, choice);
  }

  lemma AnsweredWaiters(runs: map<RunId, Run>, waiting: map<Id, RunId>, r: RunId, choice: Choice)
    requires WaitersListed(runs, waiting, None) && r in runs && Waits(runs[r].phase)
    ensures WaitersListed(runs[r := runs[r].(phase := Chosen(choice))], waiting, None)
  {
  }

  lemma RetiredTidy(s: Queue, connection: nat, library: nat, scope: Scope)
    requires Tidy(s) && connection >= s.connection && library >= s.library &&
             connection + library > s.connection + s.library
    ensures Tidy(Retired(s).(connection := connection, library := library, scope := scope))
  {
    RetiredTables(s.runs, s.waiting, s.inFlight, s.usedRuns);
  }

  /** Answering every question keeps the tables. */
  lemma RetiredTables(runs: map<RunId, Run>, waiting: map<Id, RunId>, inFlight: map<Id, RunId>, used: set<RunId>)
    requires OneRunEach(runs, inFlight, used) && WaitersListed(runs, waiting, None)
    ensures var answered := map r | r in runs :: if runs[r].phase.Asking? then runs[r].(phase := Chosen(Keep))
            else runs[r];
            OneRunEach(answered, inFlight, used) && WaitersListed(answered, waiting, None)
  {
  }

  lemma ReapTidy(s: Queue, r: RunId)
    requires Tidy(s) && InRun(s, r, Ended)
    ensures Tidy(Reap(s, r))
  {
  }

  lemma AmbientTidy(s: Queue, a: Ambient)
    requires Tidy(s) && AmbientEnabled(s, a)
    ensures Tidy(AfterAmbient(s, a))
  {
    match a
    case Reaped(r) => ReapTidy(s, r);
    case ConnectionAdvanced(scope) => RetiredTidy(s, s.connection + 1, s.library, scope);
    case LibraryAdvanced(scope) => RetiredTidy(s, s.connection, s.library + 1, scope);
    case Opened(id) => SameRunsTidy(s, AfterAmbient(s, a));
    case Reloaded(scope) =>
    case Surroundings(listening, blocked, storageWorks) => SameRunsTidy(s, AfterAmbient(s, a));
  }

  lemma StepKeepsTidy(s: State, e: Event)
    requires Tidy(s.queue) && Enabled(s, e)
    ensures Tidy(After(s, e).queue)
  {
    var q := s.queue;
    match e
    case Send(r, id, op, content) => SentTidy(q, r, id, op, content);
    case Choose(edit, choice, r, first, second) => ChoiceTidy(q, edit, choice, r, first, second);
    case Answered(r, answer) =>
      AnsweredIsNotWaiting(q, s.server, r, answer);
      TakenUp(q, r);
      if Fenced(q, r) {
        AnswerTidy(q, r, answer);
      } else {
        PhaseTidy(q, r, Ended);
      }
    case Resumed(r, first, second) => ContinuedTidy(q, r, first, second);
    case ListRead => SameRunsTidy(q, Loaded(q));
    case Around(a) => AmbientTidy(q, a);
    case Delivered(_, _) =>
  }

  lemma AnsweredIsNotWaiting(s: Queue, server: Server, r: RunId, answer: Answer)
    requires AnswerEnabled(s, server, r, answer)
    ensures r in s.runs && !Waits(s.runs[r].phase)
  {
    match answer
    case BasisFetched(_) =>
    case Responded(_) =>
    case Lost =>
    case OkBody(_) =>
    case ErrorBody(_, _) =>
  }

  lemma {:induction false} HistoryKeepsTidy(states: seq<State>, events: seq<Event>, i: nat)
    requires History(states, events) && states[0] == Initial(states[0].queue.scope) && i < |states|
    ensures Tidy(states[i].queue)
  {
    if i > 0 {
      HistoryKeepsTidy(states, events, i - 1);
      StepKeepsTidy(states[i - 1], events[i - 1]);
    }
  }

  /** However calls, retries and answers interleave, no two live runs belong to one edit. */
  lemma AtMostOneRunPerEdit(states: seq<State>, events: seq<Event>, i: nat, a: RunId, b: RunId)
    requires History(states, events) && states[0] == Initial(states[0].queue.scope) && i < |states|
    requires a in states[i].queue.runs && b in states[i].queue.runs
    requires states[i].queue.runs[a].edit.id == states[i].queue.runs[b].edit.id
    ensures a == b
  {
    HistoryKeepsTidy(states, events, i);
  }

  // ----- Writing before sending -----------------------------------------------

  /** The run a step belongs to. */
  function Actor(e: Event): Option<RunId>
  {
    match e
    case Send(r, _, _, _) => Some(r)
    case Choose(_, _, r, _, _) => Some(r)
    case Answered(r, _) => Some(r)
    case Resumed(r, _, _) => Some(r)
    case ListRead => None
    case Around(_) => None
    case Delivered(_, _) => None
  }

  /** No request goes out, or exactly one does: by run `r`, whose scope is current, with a
      valid basis; and the list of the active scope already holds exactly that request. */
  ghost predicate SendsWritten(s: Queue, n: Queue, r: RunId)
  {
    n.requests == s.requests ||
    (&& r in n.runs && Fenced(n, r)
     && var edit := n.runs[r].edit;
     && edit in ListOf(n, n.runs[r].key)
     && (n.storageWorks ==> edit in Stored(n, n.runs[r].key))
     && edit.content.basis.Some? && ValidBasis(edit.content.basis.value)
     && n.requests == s.requests + [Request(r, edit.id, edit.operation, edit.content)])
  }

  lemma AttemptSends(s: Queue, r: RunId)
    requires r in s.runs && Fenced(s, r)
    ensures SendsWritten(s, Attempt(s, r), r)
  {
    AttemptTouches(s, r);
    AttemptWrites(s, r);
    var n, run := Attempt(s, r), s.runs[r];
    var list := Dropped(ListOf(s, run.key), run.edit.id) + [Attempted(s, run.edit)];
    assert list[|list| - 1] == Attempted(s, run.edit);
    assert n.runs[r].key == run.key;
  }

  lemma ExecuteSends(s: Queue, r: RunId, edit: Edit)
    ensures SendsWritten(s, Execute(s, r, edit), r)
  {
    if edit.id !in s.inFlight {
      AttemptSends(Started(s, r, edit), r);
    }
  }

  lemma SentSends(s: Queue, r: RunId, id: Id, op: Id, content: Content)
    ensures SendsWritten(s, Sent(s, r, id, op, content), r)
  {
    var loaded := Loaded(s);
    match Match(ListOf(loaded, s.scope), content)
    case Some(pending) => ExecuteSends(loaded, r, pending);
    case None =>
      ExecuteSends(loaded.(issued := loaded.issued[op := Identity(id, content)]), r,
                   Edit(id, content, op, "", None, None));
  }

  lemma ChoiceSends(s: Queue, edit: Edit, choice: Choice, r: RunId, first: Id, second: Id)
    ensures SendsWritten(s, ChoiceMade(s, edit, choice, r, first, second), r)
  {
    if edit.id !in s.waiting {
      match choice
      case Keep =>
      case Discard =>
      case Retry => ExecuteSends(s, r, edit);
      case Reviewed => ExecuteSends(ReviewedState(s, edit, first, second), r, ReviewedEdit(edit, first, second));
    }
  }

  lemma DismissedSends(s: Queue, r: RunId)
    requires r in s.runs
    ensures InPhase(Publish(s.(shown := None), s.runs[r].key, ListOf(s, s.runs[r].key)), r, Ended).requests ==
            s.requests
    ensures InPhase(Withdraw(s.(shown := None), s.runs[r].key, s.runs[r].edit.id), r, Ended).requests == s.requests
  {
  }

  lemma RevisedSends(s: Queue, r: RunId, first: Id, second: Id)
    requires r in s.runs && Fenced(s, r)
    ensures SendsWritten(s, Attempt(Revised(s, r, first, second), r), r)
  {
    var revised := Revised(s, r, first, second);
    assert Fenced(revised, r) && revised.requests == s.requests;
    AttemptSends(revised, r);
  }

  lemma AfterChoiceSends(s: Queue, r: RunId, choice: Choice, first: Id, second: Id)
    requires r in s.runs && Fenced(s, r)
    ensures SendsWritten(s, AfterChoice(s, r, choice, first, second), r)
  {
    match choice
    case Keep => DismissedSends(s, r);
    case Discard => DismissedSends(s, r);
    case Retry => AttemptSends(s, r);
    case Reviewed => RevisedSends(s, r, first, second);
  }

  lemma ContinuedSends(s: Queue, r: RunId, first: Id, second: Id)
    requires r in s.runs && s.runs[r].phase.Chosen?
    ensures SendsWritten(s, Continued(s, r, first, second), r)
  {
    if Fenced(s, r) {
      CurrentSends(s, r, s.runs[r].phase.choice, first, second);
    } else {
      StoppedSends(s, r, first, second);
    }
  }

  lemma CurrentSends(s: Queue, r: RunId, choice: Choice, first: Id, second: Id)
    requires r in s.runs && s.runs[r].phase == Chosen(choice) && Fenced(s, r)
    ensures SendsWritten(s, Continued(s, r, first, second), r)
  {
    AfterChoiceSends(Freed(s, r), r, choice, first, second);
    SendsFrom(s, Freed(s, r), AfterChoice(Freed(s, r), r, choice, first, second), r);
  }

  lemma StoppedSends(s: Queue, r: RunId, first: Id, second: Id)
    requires r in s.runs && s.runs[r].phase.Chosen? && !Fenced(s, r)
    ensures Continued(s, r, first, second).requests == s.requests
  {
    PhaseTouches(Freed(s, r), r, Ended);
  }

  lemma SendsFrom(s: Queue, m: Queue, n: Queue, r: RunId)
    requires m.requests == s.requests && SendsWritten(m, n, r)
    ensures SendsWritten(s, n, r)
  {
  }

  lemma FailedSends(s: Queue, r: RunId, message: string, conflict: Option<Conflict>, recovery: Option<Basis>)
    requires r in s.runs
    ensures Failed(s, r, message, conflict, recovery).requests == s.requests
  {
    FailedTouches(s, r, message, conflict, recovery);
  }

  lemma AfterAnswerSends(s: Queue, r: RunId, answer: Answer)
    requires r in s.runs
    ensures AfterAnswer(s, r, answer).requests == s.requests
  {
    match answer
    case BasisFetched(basis) => FailedSends(s, r, if basis.Some? then REVIEW_FIRST else NO_OPENING, None, basis);
    case Responded(_) =>
    case Lost => FailedSends(s, r, UNCONFIRMED, None, None);
    case OkBody(_) =>
      FailedSends(s, r, UNCONFIRMED, None, None);
      AcceptedTouches(s, r);
    case ErrorBody(message, conflict) => FailedSends(s, r, message, conflict, None);
  }

  lemma AnswerSends(s: Queue, r: RunId, answer: Answer)
    requires r in s.runs
    ensures Guarded(s, r, AfterAnswer(s, r, answer)).requests == s.requests
  {
    if Fenced(s, r) {
      AfterAnswerSends(s, r, answer);
    }
  }

  lemma AmbientSends(s: Queue, a: Ambient)
    requires AmbientEnabled(s, a)
    ensures AfterAmbient(s, a).requests == s.requests
    ensures s.usedRuns == AfterAmbient(s, a).usedRuns
  {
    match a
    case Reaped(r) =>
    case ConnectionAdvanced(scope) =>
    case LibraryAdvanced(scope) =>
    case Opened(id) =>
    case Reloaded(scope) =>
    case Surroundings(listening, blocked, storageWorks) =>
  }

  /** Every request that goes out is, at that moment, the retained edit of a run whose scope
      is current: written before it is sent. */
  lemma RequestIsWrittenFirst(s: State, e: Event)
    requires Enabled(s, e)
    ensures var n := After(s, e).queue;
            n.requests == s.queue.requests || (Actor(e).Some? && SendsWritten(s.queue, n, Actor(e).value))
  {
    var q := s.queue;
    match e
    case Send(r, id, op, content) => SentSends(q, r, id, op, content);
    case Choose(edit, choice, r, first, second) => ChoiceSends(q, edit, choice, r, first, second);
    case Answered(r, answer) => AnswerSends(q, r, answer);
    case Resumed(r, first, second) => ContinuedSends(q, r, first, second);
    case ListRead =>
    case Around(a) => AmbientSends(q, a);
    case Delivered(_, _) =>
  }

  // ----- Scope changes --------------------------------------------------------

  predicate Advances(e: Event)
  {
    e.Around? && (e.ambient.ConnectionAdvanced? || e.ambient.LibraryAdvanced?)
  }

  /** The run belongs to an earlier scope, or is gone with the page it ran in. */
  ghost predicate Superseded(s: Queue, r: RunId)
  {
    r in s.usedRuns && (r in s.runs ==> !Fenced(s, r))
  }

  /** A step by a superseded run touches nothing but the run itself. */
  lemma SupersededStepIsInert(s: State, e: Event, r: RunId)
    requires Tidy(s.queue) && Enabled(s, e) && Superseded(s.queue, r)
    requires Actor(e) == Some(r)
    ensures After(s, e) == s.(queue := s.queue.(runs := After(s, e).queue.runs, waiting := After(s, e).queue.waiting))
  {
    var q := s.queue;
    match e
    case Send(_, _, _, _) =>
    case Choose(_, _, _, _, _) =>
    case Answered(_, answer) => AnsweredIsNotWaiting(q, s.server, r, answer);
    case Resumed(_, _, _) =>
    case ListRead =>
    case Around(_) =>
    case Delivered(_, _) =>
  }

  /** What a step can do to the runs' captured versions and the counters. */
  ghost predicate Fences(s: Queue, n: Queue)
  {
    && s.usedRuns <= n.usedRuns
    && forall r :: r in s.usedRuns && r in n.runs ==>
         r in s.runs && n.runs[r].connection == s.runs[r].connection && n.runs[r].library == s.runs[r].library
         && n.connection >= s.connection && n.library >= s.library
  }

  lemma TouchFences(s: Queue, n: Queue, r: RunId)
    requires Touches(s, n, r)
    ensures Fences(s, n)
  {
  }

  lemma SameFences(s: Queue, n: Queue)
    requires n.runs == s.runs && SameTables(s, n)
    ensures Fences(s, n)
  {
  }

  lemma FencesTransitive(a: Queue, b: Queue, c: Queue)
    requires Fences(a, b) && Fences(b, c)
    ensures Fences(a, c)
  {
  }

  lemma ExecuteFences(s: Queue, r: RunId, edit: Edit)
    requires r !in s.usedRuns
    ensures Fences(s, Execute(s, r, edit))
  {
    if edit.id !in s.inFlight {
      var started := Started(s, r, edit);
      assert Fences(s, started);
      AttemptTouches(started, r);
      TouchFences(started, Attempt(started, r), r);
      FencesTransitive(s, started, Attempt(started, r));
    }
  }

  lemma SentFences(s: Queue, r: RunId, id: Id, op: Id, content: Content)
    requires r !in s.usedRuns
    ensures Fences(s, Sent(s, r, id, op, content))
  {
    var loaded := Loaded(s);
    match Match(ListOf(loaded, s.scope), content)
    case Some(pending) => ExecuteFencesFrom(s, loaded, r, pending);
    case None =>
      ExecuteFencesFrom(s, loaded.(issued := loaded.issued[op := Identity(id, content)]), r,
                        Edit(id, content, op, "", None, None));
  }

  lemma ExecuteFencesFrom(s: Queue, m: Queue, r: RunId, edit: Edit)
    requires r !in s.usedRuns && m.runs == s.runs && SameTables(s, m)
    ensures Fences(s, Execute(m, r, edit))
  {
    SameFences(s, m);
    ExecuteFences(m, r, edit);
    FencesTransitive(s, m, Execute(m, r, edit));
  }

  lemma KeptFences(s: Queue)
    ensures Fences(s, Publish(Loaded(s).(shown := None), s.scope, ListOf(Loaded(s), s.scope)))
  {
    SameFences(s, Publish(Loaded(s).(shown := None), s.scope, ListOf(Loaded(s), s.scope)));
  }

  lemma DiscardedFences(s: Queue, id: Id)
    ensures Fences(s, Withdraw(Loaded(s).(shown := None), s.scope, id))
  {
    SameFences(s, Withdraw(Loaded(s).(shown := None), s.scope, id));
  }

  lemma ReviewFences(s: Queue, edit: Edit, r: RunId, first: Id, second: Id)
    requires r !in s.usedRuns
    ensures Fences(s, Execute(ReviewedState(s, edit, first, second), r, ReviewedEdit(edit, first, second)))
  {
    var reviewed := ReviewedState(s, edit, first, second);
    SameFences(s, reviewed);
    ExecuteFences(reviewed, r, ReviewedEdit(edit, first, second));
    FencesTransitive(s, reviewed, Execute(reviewed, r, ReviewedEdit(edit, first, second)));
  }

  lemma ChoiceFences(s: Queue, edit: Edit, choice: Choice, r: RunId, first: Id, second: Id)
    requires r !in s.usedRuns
    ensures Fences(s, ChoiceMade(s, edit, choice, r, first, second))
  {
    if edit.id in s.waiting {
      if s.waiting[edit.id] in s.runs {
        PhaseTouches(s, s.waiting[edit.id], Chosen(choice));
        TouchFences(s, InPhase(s, s.waiting[edit.id], Chosen(choice)), s.waiting[edit.id]);
      }
    } else {
      match choice
      case Keep => KeptFences(s);
      case Discard => DiscardedFences(s, edit.id);
      case Retry => ExecuteFences(s, r, edit);
      case Reviewed => ReviewFences(s, edit, r, first, second);
    }
  }

  lemma AnswerFences(s: Queue, r: RunId, answer: Answer)
    requires r in s.runs
    ensures Fences(s, AfterAnswer(s, r, answer))
  {
    var n := AfterAnswer(s, r, answer);
    match answer
    case BasisFetched(basis) =>
      FailedTouches(s, r, if basis.Some? then REVIEW_FIRST else NO_OPENING, None, basis);
      TouchFences(s, n, r);
    case Responded(ok) =>
      PhaseTouches(s, r, if ok then ReadingOk else ReadingError);
      TouchFences(s, n, r);
    case Lost =>
      FailedTouches(s, r, UNCONFIRMED, None, None);
      TouchFences(s, n, r);
    case OkBody(readable) =>
      FailedTouches(s, r, UNCONFIRMED, None, None);
      AcceptedTouches(s, r);
      TouchFences(s, n, r);
    case ErrorBody(message, conflict) =>
      FailedTouches(s, r, message, conflict, None);
      TouchFences(s, n, r);
  }

  lemma AfterChoiceFences(s: Queue, r: RunId, choice: Choice, first: Id, second: Id)
    requires r in s.runs
    ensures Fences(s, AfterChoice(s, r, choice, first, second))
  {
    match choice
    case Keep => EndedFences(s, Publish(s.(shown := None), s.runs[r].key, ListOf(s, s.runs[r].key)), r);
    case Discard => EndedFences(s, Withdraw(s.(shown := None), s.runs[r].key, s.runs[r].edit.id), r);
    case Retry =>
      AttemptTouches(s, r);
      TouchFences(s, Attempt(s, r), r);
    case Reviewed =>
      var revised := Revised(s, r, first, second);
      assert TouchedRun(s.runs, revised.runs, r);
      TouchFences(s, revised, r);
      AttemptTouches(revised, r);
      TouchFences(revised, Attempt(revised, r), r);
      FencesTransitive(s, revised, Attempt(revised, r));
  }

  lemma EndedFences(s: Queue, n: Queue, r: RunId)
    requires r in s.runs && SameRuns(s, n)
    ensures Fences(s, InPhase(n, r, Ended))
  {
    PhaseTouches(n, r, Ended);
    TouchFences(n, InPhase(n, r, Ended), r);
  }

  lemma AmbientFences(s: Queue, a: Ambient)
    requires AmbientEnabled(s, a)
    ensures Fences(s, AfterAmbient(s, a))
  {
    match a
    case Reaped(r) =>
    case ConnectionAdvanced(scope) =>
    case LibraryAdvanced(scope) =>
    case Opened(id) =>
    case Reloaded(scope) =>
    case Surroundings(listening, blocked, storageWorks) =>
  }

  lemma StepFences(s: State, e: Event)
    requires Enabled(s, e)
    ensures Fences(s.queue, After(s, e).queue)
  {
    var q := s.queue;
    match e
    case Send(r, id, op, content) => SentFences(q, r, id, op, content);
    case Choose(edit, choice, r, first, second) => ChoiceFences(q, edit, choice, r, first, second);
    case Answered(r, answer) =>
      AnswerFences(q, r, answer);
      EndedFences(q, q, r);
    case Resumed(r, first, second) =>
      var freed := Freed(q, r);
      SameFences(q, freed);
      if Fenced(q, r) {
        AfterChoiceFences(freed, r, q.runs[r].phase.choice, first, second);
        FencesTransitive(q, freed, Continued(q, r, first, second));
      } else {
        EndedFences(freed, freed, r);
        FencesTransitive(q, freed, Continued(q, r, first, second));
      }
    case ListRead => SameFences(q, Loaded(q));
    case Around(a) => AmbientFences(q, a);
    case Delivered(_, _) => SameFences(q, q);
  }

  lemma SupersededStays(s: State, e: Event, r: RunId)
    requires Tidy(s.queue) && Enabled(s, e) && r in s.queue.usedRuns
    requires Superseded(s.queue, r) || Advances(e)
    ensures Superseded(After(s, e).queue, r)
  {
    StepFences(s, e);
    assert r in s.queue.runs ==>
        s.queue.runs[r].connection <= s.queue.connection && s.queue.runs[r].library <= s.queue.library;
  }

  lemma {:induction false} SupersededForever(states: seq<State>, events: seq<Event>, k: nat, l: nat, r: RunId)
    requires History(states, events) && states[0] == Initial(states[0].queue.scope)
    requires k < l < |states| && r in states[k].queue.usedRuns && Advances(events[k])
    ensures Superseded(states[l].queue, r)
  {
    HistoryKeepsTidy(states, events, l - 1);
    assert Enabled(states[l - 1], events[l - 1]);
    if k < l - 1 {
      SupersededForever(states, events, k, l - 1, r);
    }
    SupersededStays(states[l - 1], events[l - 1], r);
  }

  /** After any advance of the connection or the library, even one that comes back to the
      scope it left, a run begun before it changes no list and no shown edit, sends nothing
      and issues nothing. */
  lemma EarlierRunsAreInert(states: seq<State>, events: seq<Event>, k: nat, l: nat, r: RunId)
    requires History(states, events) && states[0] == Initial(states[0].queue.scope)
    requires k < l < |events| && r in states[k].queue.usedRuns && Advances(events[k])
    requires Actor(events[l]) == Some(r)
    ensures states[l + 1] == states[l].(queue := states[l].queue.(runs := states[l + 1].queue.runs,
                                                                  waiting := states[l + 1].queue.waiting))
  {
    SupersededForever(states, events, k, l, r);
    HistoryKeepsTidy(states, events, l);
    assert Enabled(states[l], events[l]);
    SupersededStepIsInert(states[l], events[l], r);
  }

  lemma OneRequestByActor(s: State, e: Event) returns (q: Request)
    requires Enabled(s, e) && After(s, e).queue.requests != s.queue.requests
    ensures Actor(e) == Some(q.run) && After(s, e).queue.requests == s.queue.requests + [q]
  {
    RequestIsWrittenFirst(s, e);
    q := Last(After(s, e).queue.requests);
  }

  /** The requests that these runs sent, in order. */
  function SentBy(requests: seq<Request>, runs: set<RunId>): seq<Request>
  {
    if requests == [] then []
    else if Last(requests).run in runs then SentBy(Init(requests), runs) + [Last(requests)]
    else SentBy(Init(requests), runs)
  }

  lemma SentByAppend(requests: seq<Request>, q: Request, runs: set<RunId>)
    requires q.run !in runs
    ensures SentBy(requests + [q], runs) == SentBy(requests, runs)
  {
    assert Init(requests + [q]) == requests;
  }

  lemma RequestsStep(states: seq<State>, events: seq<Event>, k: nat, l: nat)
    requires History(states, events) && states[0] == Initial(states[0].queue.scope)
    requires k < l < |events| && Advances(events[k])
    ensures SentBy(states[l + 1].queue.requests, states[k].queue.usedRuns) ==
            SentBy(states[l].queue.requests, states[k].queue.usedRuns)
  {
    assert Enabled(states[l], events[l]);
    assert states[l + 1] == After(states[l], events[l]);
    if states[l + 1].queue.requests != states[l].queue.requests {
      var q := OneRequestByActor(states[l], events[l]);
      if q.run in states[k].queue.usedRuns {
        EarlierRunsAreInert(states, events, k, l, q.run);
      }
      SentByAppend(states[l].queue.requests, q, states[k].queue.usedRuns);
    }
  }

  lemma AdvanceSends(states: seq<State>, events: seq<Event>, k: nat)
    requires History(states, events) && k < |events| && Advances(events[k])
    ensures states[k + 1].queue.requests == states[k].queue.requests
  {
    assert Enabled(states[k], events[k]);
    AmbientSends(states[k].queue, events[k].ambient);
  }

  /** What the runs begun before an advance have sent never grows again. */
  lemma {:induction false} EarlierRunsSendNothing(states: seq<State>, events: seq<Event>, k: nat, l: nat)
    requires History(states, events) && states[0] == Initial(states[0].queue.scope)
    requires k < l < |states| && Advances(events[k])
    ensures SentBy(states[l].queue.requests, states[k].queue.usedRuns) ==
            SentBy(states[k].queue.requests, states[k].queue.usedRuns)
  {
    if k == l - 1 {
      AdvanceSends(states, events, k);
    } else {
      EarlierRunsSendNothing(states, events, k, l - 1);
      RequestsStep(states, events, k, l - 1);
    }
  }
}
