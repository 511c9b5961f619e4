/** What reaches the server: every edit is applied at most once for each time its owner
    gave it an identity, and an edit reported saved was applied as it was shown. */
module EditServer {
  import opened Core
  import opened EditBasis
  import opened EditQueue
  import opened EditIdentity

  // ----- What most of the code leaves alone -----------------------------------

  /** No identity issued, no request lost, and no run newly believes it was accepted. */
  ghost predicate Plain(s: Queue, n: Queue)
  {
    && n.issued == s.issued && n.renewals == s.renewals
    && s.requests <= n.requests
    && forall r :: r in n.runs && n.runs[r].phase == ReadingOk ==>
         r in s.runs && s.runs[r].phase == ReadingOk && n.runs[r].edit.operation == s.runs[r].edit.operation
  }

  lemma PlainTransitive(a: Queue, b: Queue, c: Queue)
    requires Plain(a, b) && Plain(b, c)
    ensures Plain(a, c)
  {
  }

  lemma PhasePlain(s: Queue, r: RunId, phase: Phase)
    requires phase != ReadingOk
    ensures Plain(s, InPhase(s, r, phase))
  {
  }

  lemma RetainPlain(s: Queue, key: Scope, edit: Edit)
    ensures Plain(s, Retain(s, key, edit))
  {
  }

  lemma RefusePlain(s: Queue, r: RunId)
    requires r in s.runs
    ensures Plain(s, Refuse(s, r))
  {
  }

  lemma TransmitPlain(s: Queue, r: RunId)
    requires r in s.runs
    ensures Plain(s, Transmit(s, r))
  {
  }

  lemma AttemptPlain(s: Queue, r: RunId)
    requires r in s.runs
    ensures Plain(s, Attempt(s, r))
  {
    var edit := s.runs[r].edit;
    var kept := Retain(s, s.runs[r].key, edit);
    RetainPlain(s, s.runs[r].key, edit);
    if s.blocked {
      RefusePlain(kept, r);
      PlainTransitive(s, kept, Refuse(kept, r));
    } else if edit.content.basis.None? || !ValidBasis(edit.content.basis.value) {
      PhasePlain(kept, r, Recovering);
      PlainTransitive(s, kept, InPhase(kept, r, Recovering));
    } else {
      TransmitPlain(kept, r);
      PlainTransitive(s, kept, Transmit(kept, r));
    }
  }

  lemma FailedPlain(s: Queue, r: RunId, message: string, conflict: Option<Conflict>, recovery: Option<Basis>)
    requires r in s.runs
    ensures Plain(s, Failed(s, r, message, conflict, recovery))
  {
    var edit := s.runs[r].edit.(message := message, conflict := conflict, recovery := recovery);
    var shown := s.(shown := Some(edit.id));
    FailedRunPlain(shown, r, edit);
    AskingOrEndedPlain(s, Retain(WithEdit(shown, r, edit), s.runs[r].key, edit), r, edit.id);
  }

  lemma FailedRunPlain(s: Queue, r: RunId, edit: Edit)
    requires r in s.runs
    ensures var n := Retain(WithEdit(s, r, edit), s.runs[r].key, edit); PlainBut(s, n, r)
  {
  }

  /** Plain, but for one run that is about to change its phase. */
  ghost predicate PlainBut(s: Queue, n: Queue, r: RunId)
  {
    && n.issued == s.issued && n.renewals == s.renewals && s.requests <= n.requests
    && r in n.runs && forall o :: o in n.runs && o != r && n.runs[o].phase == ReadingOk ==>
         o in s.runs && s.runs[o].phase == ReadingOk && n.runs[o].edit.operation == s.runs[o].edit.operation
  }

  lemma AskingOrEndedPlain(s: Queue, m: Queue, r: RunId, id: Id)
    requires PlainBut(s, m, r)
    ensures Plain(s, InPhase(m, r, Asking).(waiting := s.waiting[id := r])) && Plain(s, InPhase(m, r, Ended))
  {
  }

  lemma ExecutePlain(s: Queue, r: RunId, edit: Edit)
    ensures Plain(s, Execute(s, r, edit))
  {
    if edit.id !in s.inFlight {
      var started := Started(s, r, edit);
      assert Plain(s, started);
      AttemptPlain(started, r);
    }
  }

  // ----- Identities per edit --------------------------------------------------

  ghost function Operations(issued: map<Id, Identity>, id: Id): set<Id>
  {
    set op | op in issued && issued[op].edit == id
  }

  function Renewals(s: Queue, id: Id): nat
  {
    if id in s.renewals then s.renewals[id] else 0
  }

  /** One identity at birth, and one more for each acknowledged review. */
  ghost predicate IdentitiesCounted(s: Queue)
  {
    forall id :: |Operations(s.issued, id)| <= 1 + Renewals(s, id)
  }

  lemma IssueOperations(issued: map<Id, Identity>, op: Id, owner: Identity, id: Id)
    requires op !in issued
    ensures Operations(issued[op := owner], id) ==
            if owner.edit == id then Operations(issued, id) + {op} else Operations(issued, id)
    ensures op !in Operations(issued, id)
  {
  }

  lemma RenewCounted(s: Queue, edit: Edit)
    requires IdentitiesCounted(s) && FreshOperation(s, edit.operation)
    ensures IdentitiesCounted(Renew(s, edit))
  {
    forall id
      ensures |Operations(Renew(s, edit).issued, id)| <= 1 + Renewals(Renew(s, edit), id)
    {
      IssueOperations(s.issued, edit.operation, Identity(edit.id, edit.content), id);
      assert |Operations(s.issued, id)| <= 1 + Renewals(s, id);
    }
  }

  lemma IssueCounted(s: Queue, op: Id, id: Id, content: Content)
    requires IdentitiesCounted(s) && FreshOperation(s, op) && FreshEdit(s, id)
    ensures IdentitiesCounted(s.(issued := s.issued[op := Identity(id, content)]))
  {
    var n := s.(issued := s.issued[op := Identity(id, content)]);
    forall other
      ensures |Operations(n.issued, other)| <= 1 + Renewals(n, other)
    {
      IssueOperations(s.issued, op, Identity(id, content), other);
      assert |Operations(s.issued, other)| <= 1 + Renewals(s, other);
      if other == id {
        assert Operations(s.issued, id) == {};
      }
    }
  }

  lemma ReviewCounted(s: Queue, edit: Edit, first: Id, second: Id)
    requires IdentitiesCounted(s) && FreshOperation(s, first) && FreshOperation(s, second) && first != second
    ensures IdentitiesCounted(ReviewedState(s, edit, first, second))
  {
    var based := if edit.recovery.Some? then WithRecovery(edit, first) else edit;
    var s1 := if edit.recovery.Some? then Renew(s, based) else s;
    if edit.recovery.Some? {
      RenewCounted(s, based);
    }
    if based.conflict.Some? && based.conflict.value.reviewable {
      RenewCounted(s1, WithReview(based, second));
    }
  }

  // ----- One step -------------------------------------------------------------

  /** Identities, once issued, stay as they are. */
  ghost predicate IssuedGrows(issued: map<Id, Identity>, later: map<Id, Identity>)
  {
    forall op :: op in issued ==> op in later && later[op] == issued[op]
  }

  /** A step that may issue identities but keeps their count and every request. */
  ghost predicate Kept(s: Queue, n: Queue)
  {
    && (IdentitiesCounted(s) ==> IdentitiesCounted(n))
    && IssuedGrows(s.issued, n.issued)
    && s.requests <= n.requests
    && forall r :: r in n.runs && n.runs[r].phase == ReadingOk ==>
         r in s.runs && s.runs[r].phase == ReadingOk && n.runs[r].edit.operation == s.runs[r].edit.operation
  }

  lemma PlainIsKept(s: Queue, n: Queue)
    requires Plain(s, n)
    ensures Kept(s, n)
  {
    if IdentitiesCounted(s) {
      forall id
        ensures |Operations(n.issued, id)| <= 1 + Renewals(n, id)
      {
        assert |Operations(s.issued, id)| <= 1 + Renewals(s, id);
      }
    }
  }

  lemma KeptThenPlain(a: Queue, b: Queue, c: Queue)
    requires Kept(a, b) && Plain(b, c)
    ensures Kept(a, c)
  {
    PlainIsKept(b, c);
  }

  lemma SentKept(s: Queue, r: RunId, id: Id, op: Id, content: Content)
    requires FreshOperation(s, op) && FreshEdit(s, id)
    ensures Kept(s, Sent(s, r, id, op, content))
  {
    var loaded := Loaded(s);
    LoadedPlain(s);
    PlainIsKept(s, loaded);
    match Match(ListOf(loaded, s.scope), content)
    case Some(pending) => ExecuteKept(s, loaded, r, pending);
    case None =>
      IssueKept(s, loaded, op, id, content);
      ExecuteKept(s, loaded.(issued := loaded.issued[op := Identity(id, content)]), r,
                  Edit(id, content, op, "", None, None));
  }

  lemma ExecuteKept(s: Queue, m: Queue, r: RunId, edit: Edit)
    requires Kept(s, m)
    ensures Kept(s, Execute(m, r, edit))
  {
    ExecutePlain(m, r, edit);
    KeptThenPlain(s, m, Execute(m, r, edit));
  }

  lemma IssueKept(s: Queue, m: Queue, op: Id, id: Id, content: Content)
    requires Kept(s, m) && Plain(s, m) && FreshOperation(s, op) && FreshEdit(s, id)
    ensures Kept(s, m.(issued := m.issued[op := Identity(id, content)]))
  {
    if IdentitiesCounted(s) {
      IssueCounted(m, op, id, content);
    }
  }

  lemma DismissPlain(s: Queue, key: Scope, id: Id)
    ensures Plain(s, Publish(s.(shown := None), key, ListOf(s, key)))
    ensures Plain(s, Withdraw(s.(shown := None), key, id))
  {
  }

  lemma LoadedPlain(s: Queue)
    ensures Plain(s, Loaded(s))
  {
  }

  lemma AnsweredChoicePlain(s: Queue, edit: Edit, choice: Choice)
    requires edit.id in s.waiting
    ensures Plain(s, ChoiceMade(s, edit, choice, 0, edit.id, edit.id))
    ensures forall r, first, second ::
              ChoiceMade(s, edit, choice, r, first, second) == ChoiceMade(s, edit, choice, 0, edit.id, edit.id)
  {
  }

  lemma ChoiceKept(s: Queue, edit: Edit, choice: Choice, r: RunId, first: Id, second: Id)
    requires FreshOperation(s, first) && FreshOperation(s, second) && first != second
    ensures Kept(s, ChoiceMade(s, edit, choice, r, first, second))
  {
    if edit.id in s.waiting {
      AnsweredChoicePlain(s, edit, choice);
      PlainIsKept(s, ChoiceMade(s, edit, choice, r, first, second));
    } else {
      match choice
      case Keep => DismissedKept(s, edit.id);
      case Discard => DismissedKept(s, edit.id);
      case Retry =>
        ExecutePlain(s, r, edit);
        PlainIsKept(s, Execute(s, r, edit));
      case Reviewed =>
        var reviewed := ReviewedState(s, edit, first, second);
        ReviewedKept(s, edit, first, second);
        ExecutePlain(reviewed, r, ReviewedEdit(edit, first, second));
        KeptThenPlain(s, reviewed, Execute(reviewed, r, ReviewedEdit(edit, first, second)));
    }
  }

  lemma DismissedKept(s: Queue, id: Id)
    ensures var loaded := Loaded(s).(shown := None);
            && Kept(s, Publish(loaded, s.scope, ListOf(loaded, s.scope)))
            && Kept(s, Withdraw(loaded, s.scope, id))
  {
    var loaded := Loaded(s);
    LoadedPlain(s);
    DismissPlain(loaded, s.scope, id);
    var kept, gone := Publish(loaded.(shown := None), s.scope, ListOf(loaded, s.scope)),
        Withdraw(loaded.(shown := None), s.scope, id);
    PlainTransitive(s, loaded, kept);
    PlainTransitive(s, loaded, gone);
    PlainIsKept(s, kept);
    PlainIsKept(s, gone);
  }

  lemma ReviewedKept(s: Queue, edit: Edit, first: Id, second: Id)
    requires FreshOperation(s, first) && FreshOperation(s, second) && first != second
    ensures Kept(s, ReviewedState(s, edit, first, second))
  {
    ReviewIssues(s, edit, first, second);
    if IdentitiesCounted(s) {
      ReviewCounted(s, edit, first, second);
    }
  }

  lemma ReviewIssues(s: Queue, edit: Edit, first: Id, second: Id)
    requires FreshOperation(s, first) && FreshOperation(s, second) && first != second
    ensures IssuedGrows(s.issued, ReviewedState(s, edit, first, second).issued)
  {
    var based := if edit.recovery.Some? then WithRecovery(edit, first) else edit;
    var s1 := if edit.recovery.Some? then Renew(s, based) else s;
    assert IssuedGrows(s.issued, s1.issued) && second !in s1.issued;
    if based.conflict.Some? && based.conflict.value.reviewable {
      RenewIssues(s1, WithReview(based, second));
    }
  }

  lemma RenewIssues(s: Queue, edit: Edit)
    requires edit.operation !in s.issued
    ensures IssuedGrows(s.issued, Renew(s, edit).issued)
  {
  }

  lemma RevisedKept(s: Queue, r: RunId, first: Id, second: Id)
    requires r in s.runs && s.runs[r].phase != ReadingOk
    requires FreshOperation(s, first) && FreshOperation(s, second) && first != second
    ensures Kept(s, Revised(s, r, first, second))
  {
    var reviewed := ReviewedState(s, s.runs[r].edit, first, second);
    ReviewedKept(s, s.runs[r].edit, first, second);
    WithEditPlain(reviewed, r, ReviewedEdit(s.runs[r].edit, first, second));
    KeptThenPlain(s, reviewed, Revised(s, r, first, second));
  }

  lemma WithEditPlain(s: Queue, r: RunId, edit: Edit)
    requires r in s.runs && s.runs[r].phase != ReadingOk
    ensures Plain(s, WithEdit(s, r, edit))
  {
  }

  lemma AfterChoiceKept(s: Queue, r: RunId, choice: Choice, first: Id, second: Id)
    requires r in s.runs && s.runs[r].phase != ReadingOk
    requires FreshOperation(s, first) && FreshOperation(s, second) && first != second
    ensures Kept(s, AfterChoice(s, r, choice, first, second))
  {
    match choice
    case Keep => EndedDismissalKept(s, r);
    case Discard => EndedDismissalKept(s, r);
    case Retry =>
      AttemptPlain(s, r);
      PlainIsKept(s, Attempt(s, r));
    case Reviewed =>
      var revised := Revised(s, r, first, second);
      RevisedKept(s, r, first, second);
      AttemptPlain(revised, r);
      KeptThenPlain(s, revised, Attempt(revised, r));
  }

  lemma EndedDismissalKept(s: Queue, r: RunId)
    requires r in s.runs
    ensures Kept(s, InPhase(Publish(s.(shown := None), s.runs[r].key, ListOf(s, s.runs[r].key)), r, Ended))
    ensures Kept(s, InPhase(Withdraw(s.(shown := None), s.runs[r].key, s.runs[r].edit.id), r, Ended))
  {
    var run := s.runs[r];
    DismissPlain(s, run.key, run.edit.id);
    var kept, gone := Publish(s.(shown := None), run.key, ListOf(s, run.key)),
        Withdraw(s.(shown := None), run.key, run.edit.id);
    PhasePlain(kept, r, Ended);
    PhasePlain(gone, r, Ended);
    PlainTransitive(s, kept, InPhase(kept, r, Ended));
    PlainTransitive(s, gone, InPhase(gone, r, Ended));
    PlainIsKept(s, InPhase(kept, r, Ended));
    PlainIsKept(s, InPhase(gone, r, Ended));
  }

  lemma ContinuedKept(s: Queue, r: RunId, first: Id, second: Id)
    requires r in s.runs && s.runs[r].phase.Chosen?
    requires FreshOperation(s, first) && FreshOperation(s, second) && first != second
    ensures Kept(s, Continued(s, r, first, second))
  {
    var freed := Freed(s, r);
    if Fenced(s, r) {
      AfterChoiceKept(freed, r, s.runs[r].phase.choice, first, second);
    } else {
      PhasePlain(freed, r, Ended);
      PlainIsKept(freed, InPhase(freed, r, Ended));
    }
    FreedKept(s, r, Continued(s, r, first, second));
  }

  lemma FreedKept(s: Queue, r: RunId, n: Queue)
    requires r in s.runs && Kept(Freed(s, r), n)
    ensures Kept(s, n)
  {
    PlainIsKept(s, Freed(s, r));
  }

  lemma AcceptedPlain(s: Queue, r: RunId)
    requires r in s.runs
    ensures Plain(s, Accepted(s, r))
  {
  }

  lemma AnswerPlain(s: Queue, r: RunId, answer: Answer)
    requires r in s.runs && answer != Responded(true)
    ensures Plain(s, AfterAnswer(s, r, answer))
  {
    match answer
    case BasisFetched(basis) => FailedPlain(s, r, if basis.Some? then REVIEW_FIRST else NO_OPENING, None, basis);
    case Responded(ok) => PhasePlain(s, r, ReadingError);
    case Lost => FailedPlain(s, r, UNCONFIRMED, None, None);
    case OkBody(readable) =>
      FailedPlain(s, r, UNCONFIRMED, None, None);
      AcceptedPlain(s, r);
    case ErrorBody(message, conflict) => FailedPlain(s, r, message, conflict, None);
  }

  lemma AmbientPlain(s: Queue, a: Ambient)
    requires AmbientEnabled(s, a)
    ensures Plain(s, AfterAmbient(s, a))
  {
    match a
    case Reaped(r) =>
    case ConnectionAdvanced(scope) => RetiredPlain(s);
    case LibraryAdvanced(scope) => RetiredPlain(s);
    case Opened(id) =>
    case Reloaded(scope) =>
    case Surroundings(listening, blocked, storageWorks) =>
  }

  lemma RetiredPlain(s: Queue)
    ensures Plain(s, Retired(s))
  {
  }

  // ----- The server -----------------------------------------------------------

  /** Applied requests were sent, each under its own operation, and are exactly what is
      recorded; a run that reads an accepting reply sent a recorded operation. */
  ghost predicate ServerSound(s: State)
  {
    && (forall q :: q in s.server.applied ==> q in s.queue.requests)
    && Recorded(s.server)
    && forall r :: r in s.queue.runs && s.queue.runs[r].phase == ReadingOk ==>
        s.queue.runs[r].edit.operation in s.server.recorded
  }

  lemma KeptServerSound(s: State, n: Queue)
    requires ServerSound(s) && Kept(s.queue, n)
    ensures ServerSound(State(n, s.server))
  {
    forall q | q in s.server.applied
      ensures q in n.requests
    {
      assert q in s.queue.requests;
    }
  }

  /** The server's own part: applied requests are exactly what is recorded, each once. */
  ghost predicate Recorded(server: Server)
  {
    && (forall i :: 0 <= i < |server.applied| ==>
          var q := server.applied[i]; q.operation in server.recorded && server.recorded[q.operation] == q.content)
    && (forall op :: op in server.recorded ==>
        exists i :: 0 <= i < |server.applied| && server.applied[i].operation == op)
    && (forall i, j :: 0 <= i < j < |server.applied| ==> server.applied[i].operation != server.applied[j].operation)
  }

  lemma TurnKeepsRecorded(server: Server, q: Request, accepts: bool)
    requires Recorded(server)
    ensures Recorded(ServerTurn(server, q, accepts))
    ensures server.recorded.Keys <= ServerTurn(server, q, accepts).recorded.Keys
    ensures forall p :: p in ServerTurn(server, q, accepts).applied ==> p in server.applied || p == q
  {
    var n := ServerTurn(server, q, accepts);
    if n != server {
      assert n.applied == server.applied + [q];
      forall op | op in n.recorded
        ensures exists j :: 0 <= j < |n.applied| && n.applied[j].operation == op
      {
        if op == q.operation {
          assert n.applied[|server.applied|].operation == op;
        } else {
          var j :| 0 <= j < |server.applied| && server.applied[j].operation == op;
          assert n.applied[j].operation == op;
        }
      }
    }
  }

  lemma DeliveredServerSound(s: State, i: nat, accepts: bool)
    requires ServerSound(s) && i < |s.queue.requests|
    ensures ServerSound(State(s.queue, ServerTurn(s.server, s.queue.requests[i], accepts)))
  {
    TurnKeepsRecorded(s.server, s.queue.requests[i], accepts);
  }

  lemma RespondedServerSound(s: State, r: RunId)
    requires ServerSound(s) && AnswerEnabled(s.queue, s.server, r, Responded(true))
    ensures ServerSound(State(Guarded(s.queue, r, AfterAnswer(s.queue, r, Responded(true))), s.server))
  {
  }

  lemma QueueStepKept(s: State, e: Event)
    requires Enabled(s, e)
    ensures !(e.Answered? && e.answer == Responded(true)) ==> Kept(s.queue, QueueAfter(s.queue, e))
    ensures e.Answered? && e.answer == Responded(true) ==>
            (IdentitiesCounted(s.queue) ==> IdentitiesCounted(QueueAfter(s.queue, e)))
    ensures IssuedGrows(s.queue.issued, QueueAfter(s.queue, e).issued)
  {
    var q := s.queue;
    match e
    case Send(r, id, op, content) => SentKept(q, r, id, op, content);
    case Choose(edit, choice, r, first, second) => ChoiceKept(q, edit, choice, r, first, second);
    case Answered(r, answer) => AnsweredStepKept(q, r, answer);
    case Resumed(r, first, second) => ContinuedKept(q, r, first, second);
    case ListRead =>
      LoadedPlain(q);
      PlainIsKept(q, Loaded(q));
    case Around(a) =>
      AmbientPlain(q, a);
      PlainIsKept(q, AfterAmbient(q, a));
    case Delivered(_, _) => PlainIsKept(q, q);
  }

  lemma AnsweredStepKept(s: Queue, r: RunId, answer: Answer)
    requires r in s.runs
    ensures answer != Responded(true) ==> Kept(s, Guarded(s, r, AfterAnswer(s, r, answer)))
    ensures answer == Responded(true) ==>
              (IdentitiesCounted(s) ==> IdentitiesCounted(Guarded(s, r, AfterAnswer(s, r, answer))))
    ensures IssuedGrows(s.issued, Guarded(s, r, AfterAnswer(s, r, answer)).issued)
  {
    PhasePlain(s, r, Ended);
    PlainIsKept(s, InPhase(s, r, Ended));
    if answer != Responded(true) {
      AnswerPlain(s, r, answer);
      PlainIsKept(s, AfterAnswer(s, r, answer));
    } else if IdentitiesCounted(s) {
      ReadingCounted(s, r);
    }
  }

  lemma ReadingCounted(s: Queue, r: RunId)
    requires IdentitiesCounted(s)
    ensures IdentitiesCounted(InPhase(s, r, ReadingOk))
  {
    forall id
      ensures |Operations(InPhase(s, r, ReadingOk).issued, id)| <= 1 + Renewals(InPhase(s, r, ReadingOk), id)
    {
      assert |Operations(s.issued, id)| <= 1 + Renewals(s, id);
    }
  }

  lemma StepKeepsServerSound(s: State, e: Event)
    requires ServerSound(s) && Enabled(s, e)
    ensures ServerSound(After(s, e))
  {
    if e.Delivered? {
      DeliveredServerSound(s, e.request, e.accepts);
    } else if e.Answered? && e.answer == Responded(true) {
      RespondedServerSound(s, e.run);
    } else {
      QueueStepKept(s, e);
      KeptServerSound(s, QueueAfter(s.queue, e));
    }
  }

  lemma {:induction false} HistoryKeepsServerSound(states: seq<State>, events: seq<Event>, i: nat)
    requires History(states, events) && states[0] == Initial(states[0].queue.scope) && i < |states|
    ensures ServerSound(states[i]) && IdentitiesCounted(states[i].queue)
  {
    if i == 0 {
      forall id
        ensures Operations(states[0].queue.issued, id) == {}
      {
      }
    } else {
      HistoryKeepsServerSound(states, events, i - 1);
      StepKeepsServerSound(states[i - 1], events[i - 1]);
      QueueStepKept(states[i - 1], events[i - 1]);
    }
  }

  // ----- At most once ---------------------------------------------------------

  /** How often the server applied the edit. */
  function TimesApplied(applied: seq<Request>, id: Id): nat
  {
    if applied == [] then 0 else TimesApplied(Init(applied), id) + if Last(applied).edit == id then 1 else 0
  }

  lemma {:induction false} AppliedUnderOperations(applied: seq<Request>, issued: map<Id, Identity>, id: Id)
    requires forall q :: q in applied ==> q.operation in issued && issued[q.operation].edit == q.edit
    requires forall i, j :: 0 <= i < j < |applied| ==> applied[i].operation != applied[j].operation
    ensures TimesApplied(applied, id) <= |Operations(issued, id)|
  {
    if applied != [] {
      var rest, q := Init(applied), Last(applied);
      assert applied == rest + [q];
      if q.edit == id {
        // Without the last request's identity, the others still cover the rest.
        var fewer := issued - {q.operation};
        forall p | p in rest
          ensures p.operation in fewer && fewer[p.operation].edit == p.edit
        {
          var k :| 0 <= k < |rest| && rest[k] == p;
          assert applied[k].operation != applied[|applied| - 1].operation;
        }
        AppliedUnderOperations(rest, fewer, id);
        assert Operations(issued, id) == Operations(fewer, id) + {q.operation};
      } else {
        AppliedUnderOperations(rest, issued, id);
      }
    }
  }

  /** Whatever is retried, lost, answered twice, reloaded or switched away from: the server
      applies an edit at most once, and once more for each review its owner acknowledged. */
  lemma AppliedAtMostOncePerIdentity(states: seq<State>, events: seq<Event>, i: nat, id: Id)
    requires History(states, events) && states[0] == Initial(states[0].queue.scope) && i < |states|
    ensures TimesApplied(states[i].server.applied, id) <= 1 + Renewals(states[i].queue, id)
  {
    HistoryKeepsServerSound(states, events, i);
    InitialGood(states[0].queue.scope);
    HistoryKeepsEditsGood(states, events, i);
    var q := states[i].queue;
    forall a | a in states[i].server.applied
      ensures a.operation in q.issued && q.issued[a.operation].edit == a.edit
    {
      assert a in q.requests && GoodRequest(q.issued, a);
    }
    AppliedUnderOperations(states[i].server.applied, q.issued, id);
    assert |Operations(q.issued, id)| <= 1 + Renewals(q, id);
  }

  /** An edit leaves its list as saved only when the server applied exactly what it shows. */
  lemma AcceptedWasApplied(states: seq<State>, events: seq<Event>, i: nat)
    requires History(states, events) && states[0] == Initial(states[0].queue.scope) && i < |events|
    requires events[i].Answered? && events[i].answer == OkBody(true)
    ensures var edit := states[i].queue.runs[events[i].run].edit;
            exists k :: 0 <= k < |states[i].server.applied| &&
              states[i].server.applied[k].edit == edit.id &&
              states[i].server.applied[k].operation == edit.operation &&
              states[i].server.applied[k].content == edit.content
  {
    HistoryKeepsServerSound(states, events, i);
    InitialGood(states[0].queue.scope);
    HistoryKeepsEditsGood(states, events, i);
    assert Enabled(states[i], events[i]);
    var s := states[i];
    var edit := s.queue.runs[events[i].run].edit;
    assert Good(s.queue.issued, edit);
    assert edit.operation in s.server.recorded;
    var k :| 0 <= k < |s.server.applied| && s.server.applied[k].operation == edit.operation;
    assert s.server.applied[k] in s.queue.requests;
    assert GoodRequest(s.queue.issued, s.server.applied[k]);
  }
}
