/** One operation identity, one request: what every step keeps about edits and requests. */
module EditIdentity {
  import opened Core
  import opened EditBasis
  import opened EditQueue

  /** The edit is exactly what its operation identity was issued for, and there is at most
      one reason to review it. */
  ghost predicate Good(issued: map<Id, Identity>, e: Edit)
  {
    && e.operation in issued && issued[e.operation] == Identity(e.id, e.content)
    && (e.conflict.None? || e.recovery.None?)
  }

  ghost predicate GoodRequest(issued: map<Id, Identity>, q: Request)
  {
    && q.operation in issued && issued[q.operation] == Identity(q.edit, q.content)
    && q.content.basis.Some? && ValidBasis(q.content.basis.value)
  }

  /** Identities, once issued, never change hands. */
  ghost predicate EditsGood(s: Queue)
  {
    && (forall e :: e in s.published ==> Good(s.issued, e))
    && (forall key, e :: key in s.retained && e in s.retained[key] ==> e in s.published)
    && (forall key, e :: key in s.stored && e in s.stored[key] ==> Good(s.issued, e))
    && (forall r :: r in s.runs ==> Good(s.issued, s.runs[r].edit))
    && (forall q :: q in s.requests ==> GoodRequest(s.issued, q))
  }

  lemma {:induction false} DroppedElems(items: seq<Edit>, id: Id)
    ensures forall e :: e in Dropped(items, id) <==> e in items && e.id != id
  {
    if items != [] {
      DroppedElems(Init(items), id);
      assert items == Init(items) + [Last(items)];
    }
  }

  lemma PublishGood(s: Queue, key: Scope, items: seq<Edit>)
    requires EditsGood(s) && forall e :: e in items ==> Good(s.issued, e)
    ensures EditsGood(Publish(s, key, items))
  {
  }

  lemma RetainGood(s: Queue, key: Scope, edit: Edit)
    requires EditsGood(s) && Good(s.issued, edit)
    ensures EditsGood(Retain(s, key, edit))
  {
    DroppedElems(ListOf(s, key), edit.id);
    PublishGood(s, key, Dropped(ListOf(s, key), edit.id) + [edit]);
  }

  lemma WithdrawGood(s: Queue, key: Scope, id: Id)
    requires EditsGood(s)
    ensures EditsGood(Withdraw(s, key, id))
  {
    DroppedElems(ListOf(s, key), id);
    PublishGood(s, key, Dropped(ListOf(s, key), id));
  }

  /** What was read back is a stored entry, passed and touched up. */
  ghost predicate ReadFrom(items: seq<Edit>, scope: Scope, e: Edit, i: Edit)
  {
    i in items && e == Recovered(i) && ValidPending(i, scope)
  }

  lemma {:induction false} RecoveredElems(items: seq<Edit>, scope: Scope, e: Edit) returns (i: Edit)
    requires e in RecoveredList(items, scope)
    ensures ReadFrom(items, scope, e, i)
  {
    var rest, last := RecoveredList(Init(items), scope), Last(items);
    assert items == Init(items) + [last];
    if e in rest {
      i := RecoveredElems(Init(items), scope, e);
      assert i in items;
    } else {
      RecoveredSplit(items, scope);
      i := last;
    }
  }

  lemma RecoveredSplit(items: seq<Edit>, scope: Scope)
    requires items != []
    ensures RecoveredList(items, scope) == RecoveredList(Init(items), scope) + RecoveredList([Last(items)], scope)
    ensures forall e :: e in RecoveredList([Last(items)], scope) ==>
            ValidPending(Last(items), scope) && e == Recovered(Last(items))
  {
    assert Init([Last(items)]) == [] && RecoveredList([], scope) == [];
  }

  lemma RecoveredGood(s: Queue, e: Edit)
    requires EditsGood(s) && s.scope in s.stored && e in RecoveredList(s.stored[s.scope], s.scope)
    ensures Good(s.issued, e)
  {
    var i := RecoveredElems(s.stored[s.scope], s.scope, e);
    assert i in s.stored[s.scope] && Good(s.issued, i);
    assert e.id == i.id && e.content == i.content && e.operation == i.operation;
  }

  lemma AddListGood(s: Queue, key: Scope, list: seq<Edit>)
    requires EditsGood(s) && forall e :: e in list ==> Good(s.issued, e)
    ensures EditsGood(s.(retained := s.retained[key := list], published := s.published + Elems(list)))
  {
  }

  lemma LoadedGood(s: Queue)
    requires EditsGood(s)
    ensures EditsGood(Loaded(s))
  {
    if s.scope !in s.retained {
      if s.scope in s.stored {
        var list := RecoveredList(s.stored[s.scope], s.scope);
        forall e | e in list
          ensures Good(s.issued, e)
        {
          RecoveredGood(s, e);
        }
        AddListGood(s, s.scope, list);
      } else {
        AddListGood(s, s.scope, []);
        assert RecoveredList([], s.scope) == [];
      }
    }
  }

  lemma PhaseGood(s: Queue, r: RunId, phase: Phase)
    requires EditsGood(s)
    ensures EditsGood(InPhase(s, r, phase))
  {
  }

  lemma WithEditGood(s: Queue, r: RunId, edit: Edit)
    requires EditsGood(s) && Good(s.issued, edit)
    ensures EditsGood(WithEdit(s, r, edit))
  {
  }

  lemma RefuseGood(s: Queue, r: RunId)
    requires EditsGood(s) && r in s.runs
    ensures EditsGood(Refuse(s, r))
  {
    var refused := s.runs[r].edit.(message := BLOCKED);
    WithEditGood(s, r, refused);
    RetainGood(WithEdit(s, r, refused), s.runs[r].key, refused);
    PhaseGood(Retain(WithEdit(s, r, refused), s.runs[r].key, refused), r, Ended);
  }

  lemma TransmitGood(s: Queue, r: RunId)
    requires EditsGood(s) && r in s.runs
    requires s.runs[r].edit.content.basis.Some? && ValidBasis(s.runs[r].edit.content.basis.value)
    ensures EditsGood(Transmit(s, r))
  {
    PhaseGood(s, r, AwaitingResponse);
    var n := Transmit(s, r);
    var q := Last(n.requests);
    assert n.requests == s.requests + [q];
    assert GoodRequest(s.issued, q);
  }

  lemma AttemptGood(s: Queue, r: RunId)
    requires EditsGood(s) && r in s.runs
    ensures EditsGood(Attempt(s, r))
  {
    var run := s.runs[r];
    var kept := Retain(s, run.key, run.edit);
    RetainGood(s, run.key, run.edit);
    if s.blocked {
      RefuseGood(kept, r);
    } else if run.edit.content.basis.None? || !ValidBasis(run.edit.content.basis.value) {
      PhaseGood(kept, r, Recovering);
    } else {
      TransmitGood(kept, r);
    }
  }

  lemma FailedGood(s: Queue, r: RunId, message: string, conflict: Option<Conflict>, recovery: Option<Basis>)
    requires EditsGood(s) && r in s.runs && (conflict.None? || recovery.None?)
    ensures EditsGood(Failed(s, r, message, conflict, recovery))
  {
    var run := s.runs[r];
    var edit := run.edit.(message := message, conflict := conflict, recovery := recovery);
    var shown := s.(shown := Some(edit.id));
    WithEditGood(shown, r, edit);
    RetainGood(WithEdit(shown, r, edit), run.key, edit);
    var kept := Retain(WithEdit(shown, r, edit), run.key, edit);
    PhaseGood(kept, r, Asking);
    PhaseGood(kept, r, Ended);
  }

  lemma ExecuteGood(s: Queue, r: RunId, edit: Edit)
    requires EditsGood(s) && Good(s.issued, edit)
    ensures EditsGood(Execute(s, r, edit))
  {
    if edit.id !in s.inFlight {
      AttemptGood(Started(s, r, edit), r);
    }
  }

  lemma RenewGood(s: Queue, edit: Edit)
    requires EditsGood(s) && FreshOperation(s, edit.operation) && (edit.conflict.None? || edit.recovery.None?)
    ensures EditsGood(Renew(s, edit)) && Good(Renew(s, edit).issued, edit)
  {
    IssueGood(s, edit.operation, edit.id, edit.content);
  }

  lemma ReviewGood(s: Queue, edit: Edit, first: Id, second: Id)
    requires EditsGood(s) && Good(s.issued, edit)
    requires FreshOperation(s, first) && FreshOperation(s, second) && first != second
    ensures EditsGood(ReviewedState(s, edit, first, second))
    ensures Good(ReviewedState(s, edit, first, second).issued, ReviewedEdit(edit, first, second))
  {
    var based := if edit.recovery.Some? then WithRecovery(edit, first) else edit;
    var s1 := if edit.recovery.Some? then Renew(s, based) else s;
    if edit.recovery.Some? {
      RenewGood(s, based);
    }
    if based.conflict.Some? && based.conflict.value.reviewable {
      RenewGood(s1, WithReview(based, second));
    }
  }

  lemma IssueGood(s: Queue, op: Id, id: Id, content: Content)
    requires EditsGood(s) && FreshOperation(s, op)
    ensures EditsGood(s.(issued := s.issued[op := Identity(id, content)]))
  {
    var n := s.(issued := s.issued[op := Identity(id, content)]);
    forall key, e | key in n.stored && e in n.stored[key]
      ensures Good(n.issued, e)
    {
      assert Good(s.issued, e);
    }
  }

  lemma SentGood(s: Queue, r: RunId, id: Id, op: Id, content: Content)
    requires EditsGood(s) && FreshOperation(s, op)
    ensures EditsGood(Sent(s, r, id, op, content))
  {
    LoadedGood(s);
    var loaded := Loaded(s);
    MatchedIsListed(ListOf(loaded, s.scope), content);
    match Match(ListOf(loaded, s.scope), content)
    case Some(pending) =>
      assert pending in loaded.published;
      ExecuteGood(loaded, r, pending);
    case None =>
      IssueGood(loaded, op, id, content);
      ExecuteGood(loaded.(issued := loaded.issued[op := Identity(id, content)]), r,
                  Edit(id, content, op, "", None, None));
  }

  lemma {:induction false} MatchedIsListed(items: seq<Edit>, content: Content)
    ensures Match(items, content).Some? ==>
              && Match(items, content).value in items
              && Match(items, content).value.content.(reviewed := map[]) == content.(reviewed := map[])
  {
    if items != [] {
      MatchedIsListed(items[1..], content);
    }
  }

  lemma KeptGood(s: Queue)
    requires EditsGood(s)
    ensures EditsGood(Publish(Loaded(s).(shown := None), s.scope, ListOf(Loaded(s), s.scope)))
  {
    LoadedGood(s);
    PublishGood(Loaded(s).(shown := None), s.scope, ListOf(Loaded(s), s.scope));
  }

  lemma DiscardedGood(s: Queue, id: Id)
    requires EditsGood(s)
    ensures EditsGood(Withdraw(Loaded(s).(shown := None), s.scope, id))
  {
    LoadedGood(s);
    WithdrawGood(Loaded(s).(shown := None), s.scope, id);
  }

  lemma ChoiceGood(s: Queue, edit: Edit, choice: Choice, r: RunId, first: Id, second: Id)
    requires EditsGood(s) && edit in s.published
    requires FreshOperation(s, first) && FreshOperation(s, second) && first != second
    ensures EditsGood(ChoiceMade(s, edit, choice, r, first, second))
  {
    if edit.id in s.waiting {
      PhaseGood(s, s.waiting[edit.id], Chosen(choice));
    } else {
      match choice
      case Keep => KeptGood(s);
      case Discard => DiscardedGood(s, edit.id);
      case Retry => ExecuteGood(s, r, edit);
      case Reviewed =>
        ReviewGood(s, edit, first, second);
        ExecuteGood(ReviewedState(s, edit, first, second), r, ReviewedEdit(edit, first, second));
    }
  }

  lemma AfterChoiceGood(s: Queue, r: RunId, choice: Choice, first: Id, second: Id)
    requires EditsGood(s) && r in s.runs
    requires FreshOperation(s, first) && FreshOperation(s, second) && first != second
    ensures EditsGood(AfterChoice(s, r, choice, first, second))
  {
    var run := s.runs[r];
    match choice
    case Keep =>
      PublishGood(s.(shown := None), run.key, ListOf(s, run.key));
      PhaseGood(Publish(s.(shown := None), run.key, ListOf(s, run.key)), r, Ended);
    case Discard =>
      WithdrawGood(s.(shown := None), run.key, run.edit.id);
      PhaseGood(Withdraw(s.(shown := None), run.key, run.edit.id), r, Ended);
    case Retry => AttemptGood(s, r);
    case Reviewed =>
      ReviewGood(s, run.edit, first, second);
      WithEditGood(ReviewedState(s, run.edit, first, second), r, ReviewedEdit(run.edit, first, second));
      AttemptGood(Revised(s, r, first, second), r);
  }

  lemma AcceptedGood(s: Queue, r: RunId)
    requires EditsGood(s) && r in s.runs
    ensures EditsGood(Accepted(s, r))
  {
    var run := s.runs[r];
    var shown := s.(shown := if s.shown == Some(run.edit.id) then None else s.shown);
    WithdrawGood(shown, run.key, run.edit.id);
    PhaseGood(Withdraw(shown, run.key, run.edit.id), r, Ended);
  }

  lemma AnswerGood(s: Queue, r: RunId, answer: Answer)
    requires EditsGood(s) && r in s.runs
    ensures EditsGood(AfterAnswer(s, r, answer))
  {
    match answer
    case BasisFetched(basis) => FailedGood(s, r, if basis.Some? then REVIEW_FIRST else NO_OPENING, None, basis);
    case Responded(ok) => PhaseGood(s, r, if ok then ReadingOk else ReadingError);
    case Lost => FailedGood(s, r, UNCONFIRMED, None, None);
    case ErrorBody(message, conflict) => FailedGood(s, r, message, conflict, None);
    case OkBody(readable) =>
      AcceptedGood(s, r);
      FailedGood(s, r, UNCONFIRMED, None, None);
  }

  lemma ContinuedGood(s: Queue, r: RunId, first: Id, second: Id)
    requires EditsGood(s) && r in s.runs && s.runs[r].phase.Chosen?
    requires FreshOperation(s, first) && FreshOperation(s, second) && first != second
    ensures EditsGood(Continued(s, r, first, second))
  {
    var freed := Freed(s, r);
    assert EditsGood(freed);
    AfterChoiceGood(freed, r, s.runs[r].phase.choice, first, second);
    PhaseGood(freed, r, Ended);
  }

  /** Forgetting lists or runs, and changing anything outside the queue. */
  ghost predicate Carries(s: Queue, n: Queue)
  {
    && n.issued == s.issued && n.stored == s.stored && n.requests == s.requests
    && ((n.retained == s.retained && n.published == s.published) || (n.retained == map[] && n.published == {}))
    && forall r :: r in n.runs ==> r in s.runs && n.runs[r].edit == s.runs[r].edit
  }

  lemma ForgetCarries(s: Queue, connection: nat, library: nat, scope: Scope)
    ensures Carries(s, Retired(s).(connection := connection, library := library, scope := scope))
    ensures Carries(s, PageReload(s, scope))
    ensures forall r :: r in s.runs ==> Carries(s, Reap(s, r))
  {
  }

  lemma CarryGood(s: Queue, n: Queue)
    requires EditsGood(s) && Carries(s, n)
    ensures EditsGood(n)
  {
  }

  lemma SurroundingsGood(s: Queue, shown: Option<Id>, listening: bool, blocked: bool, storageWorks: bool)
    requires EditsGood(s)
    ensures EditsGood(s.(shown := shown))
    ensures EditsGood(s.(listening := listening, blocked := blocked, storageWorks := storageWorks))
  {
    CarryGood(s, s.(shown := shown));
    CarryGood(s, s.(listening := listening, blocked := blocked, storageWorks := storageWorks));
  }

  lemma ForgetGood(s: Queue, connection: nat, library: nat, scope: Scope)
    requires EditsGood(s)
    ensures EditsGood(Retired(s).(connection := connection, library := library, scope := scope))
    ensures EditsGood(PageReload(s, scope))
    ensures forall r :: r in s.runs ==> EditsGood(Reap(s, r))
  {
    ForgetCarries(s, connection, library, scope);
    CarryGood(s, Retired(s).(connection := connection, library := library, scope := scope));
    CarryGood(s, PageReload(s, scope));
    forall r | r in s.runs
      ensures EditsGood(Reap(s, r))
    {
      CarryGood(s, Reap(s, r));
    }
  }

  lemma AmbientGood(s: Queue, a: Ambient)
    requires EditsGood(s) && AmbientEnabled(s, a)
    ensures EditsGood(AfterAmbient(s, a))
  {
    match a
    case Reaped(r) => ForgetGood(s, 0, 0, s.scope);
    case ConnectionAdvanced(scope) => ForgetGood(s, s.connection + 1, s.library, scope);
    case LibraryAdvanced(scope) => ForgetGood(s, s.connection, s.library + 1, scope);
    case Opened(id) => SurroundingsGood(s, Some(id), false, false, false);
    case Reloaded(scope) => ForgetGood(s, 0, 0, scope);
    case Surroundings(listening, blocked, storageWorks) =>
        SurroundingsGood(s, s.shown, listening, blocked, storageWorks);
  }

  lemma StepKeepsEditsGood(s: State, e: Event)
    requires EditsGood(s.queue) && Enabled(s, e)
    ensures EditsGood(After(s, e).queue)
  {
    var q := s.queue;
    match e
    case Send(r, id, op, content) => SentGood(q, r, id, op, content);
    case Choose(edit, choice, r, first, second) => ChoiceGood(q, edit, choice, r, first, second);
    case Answered(r, answer) =>
      AnswerGood(q, r, answer);
      PhaseGood(q, r, Ended);
    case Resumed(r, first, second) => ContinuedGood(q, r, first, second);
    case ListRead => LoadedGood(q);
    case Around(a) => AmbientGood(q, a);
    case Delivered(_, _) =>
  }

  lemma {:induction false} HistoryKeepsEditsGood(states: seq<State>, events: seq<Event>, i: nat)
    requires History(states, events) && EditsGood(states[0].queue) && i < |states|
    ensures EditsGood(states[i].queue)
  {
    if i > 0 {
      HistoryKeepsEditsGood(states, events, i - 1);
      StepKeepsEditsGood(states[i - 1], events[i - 1]);
    }
  }

  lemma InitialGood(scope: Scope)
    ensures EditsGood(Initial(scope).queue)
  {
  }

  /** Across retries, keeps, lost replies, reviews, reloads and scope changes: any two
      requests sent under one operation identity are the same request, of the same edit,
      and every request carries a valid basis. */
  lemma SameOperationSameRequest(states: seq<State>, events: seq<Event>, i: nat, a: Request, b: Request)
    requires History(states, events) && states[0] == Initial(states[0].queue.scope) && i < |states|
    requires a in states[i].queue.requests && b in states[i].queue.requests && a.operation == b.operation
    ensures a.content == b.content && a.edit == b.edit
    ensures a.content.basis.Some? && ValidBasis(a.content.basis.value)
  {
    InitialGood(states[0].queue.scope);
    HistoryKeepsEditsGood(states, events, i);
  }
}
