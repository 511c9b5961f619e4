/** What a page asks the server, and under which identity: a request that is still retained
    goes out again as it was, and only an acknowledgement gives it a new identity. */
module EditRequests {
  import opened Core
  import opened EditBasis
  import opened EditQueue
  import opened EditIdentity
  import opened EditLists
  import opened EditRuns
  import opened EditKeeping
  import opened EditPromises

  // ----- The same request -----------------------------------------------------

  /** The four fields `sendMetadata` looks for. */
  predicate SameRequest(a: Content, b: Content)
  {
    a.url == b.url && a.httpMethod == b.httpMethod && a.body == b.body && a.basis == b.basis
  }

  ghost predicate AsksFor(items: seq<Edit>, content: Content)
  {
    exists e :: e in items && SameRequest(e.content, content)
  }

  /** The list's first edit of this request is the k-th. */
  ghost predicate FirstAsking(items: seq<Edit>, content: Content, k: nat)
  {
    && k < |items| && SameRequest(items[k].content, content)
    && forall j :: 0 <= j < k ==> !SameRequest(items[j].content, content)
  }

  /** The search finds the first edit of the request, whatever its message and its review
      map, and finds nothing only when there is none. */
  lemma {:induction false} MatchIsFirst(items: seq<Edit>, content: Content)
    ensures Match(items, content).None? <==> !AsksFor(items, content)
    ensures forall k: nat :: FirstAsking(items, content, k) ==> Match(items, content) == Some(items[k])
    ensures AsksFor(items, content) ==> exists k: nat :: FirstAsking(items, content, k)
  {
    if items != [] {
      var rest := items[1..];
      MatchIsFirst(rest, content);
      assert items == [items[0]] + rest;
      if SameRequest(items[0].content, content) {
        assert FirstAsking(items, content, 0);
      } else {
        assert AsksFor(items, content) <==> AsksFor(rest, content);
        forall k: nat | FirstAsking(items, content, k)
          ensures Match(items, content) == Some(items[k])
        {
          assert FirstAsking(rest, content, k - 1);
        }
        if AsksFor(rest, content) {
          var k: nat :| FirstAsking(rest, content, k);
          assert FirstAsking(items, content, k + 1);
        }
      }
    }
  }

  // ----- What an attempt sends ------------------------------------------------

  /** Nothing keeps the request from going out. */
  predicate Ready(s: Queue, content: Content)
  {
    !s.blocked && content.basis.Some? && ValidBasis(content.basis.value)
  }

  /** Exactly this edit's request goes out, under its own identity, if anything may. */
  ghost predicate SendsEdit(s: Queue, n: Queue, r: RunId, edit: Edit)
  {
    n.requests == if Ready(s, edit.content) then s.requests + [Request(r, edit.id, edit.operation, edit.content)]
                  else s.requests
  }

  /** The run has attempted this edit: the list ends with it, and its request goes out if
      nothing keeps it back. */
  ghost predicate Attempts(s: Queue, n: Queue, r: RunId, key: Scope, edit: Edit)
  {
    && r in n.runs && n.runs[r].key == key
    && n.runs[r].edit == (if s.blocked then edit.(message := BLOCKED) else edit)
    && n.runs[r].phase == (if s.blocked then Ended else if Ready(s, edit.content) then AwaitingResponse else Recovering)
    && ListOf(n, key) != [] && Last(ListOf(n, key)) == n.runs[r].edit
    && SendsEdit(s, n, r, edit) && n.shown == s.shown
  }

  lemma AttemptAttempts(s: Queue, r: RunId)
    requires r in s.runs
    ensures Attempts(s, Attempt(s, r), r, s.runs[r].key, s.runs[r].edit) && Attempt(s, r).issued == s.issued
  {
    AttemptWrites(s, r);
    AttemptTouches(s, r);
    var list := Dropped(ListOf(s, s.runs[r].key), s.runs[r].edit.id) + [Attempted(s, s.runs[r].edit)];
    assert Last(list) == Attempted(s, s.runs[r].edit);
    assert ListOf(Attempt(s, r), s.runs[r].key) == list;
  }

  /** A new run of this edit, in the active scope. */
  ghost predicate Starts(s: Queue, n: Queue, r: RunId, edit: Edit)
  {
    edit.id in n.inFlight && n.inFlight[edit.id] == r && Attempts(s, n, r, s.scope, edit)
  }

  /** The edit is on its way already: nothing more goes out. */
  ghost predicate Joins(s: Queue, n: Queue)
  {
    n.runs == s.runs && n.inFlight == s.inFlight && n.requests == s.requests && n.shown == s.shown
  }

  ghost predicate StartsOrJoins(s: Queue, n: Queue, r: RunId, edit: Edit)
  {
    if edit.id in s.inFlight then Joins(s, n) else Starts(s, n, r, edit)
  }

  lemma ExecuteStartsOrJoins(s: Queue, r: RunId, edit: Edit)
    ensures StartsOrJoins(s, Execute(s, r, edit), r, edit) && Execute(s, r, edit).issued == s.issued
  {
    if edit.id !in s.inFlight {
      var started := Started(s, r, edit);
      AttemptAttempts(started, r);
      AttemptTouches(started, r);
    }
  }

  lemma StartsFrom(s: Queue, m: Queue, n: Queue, r: RunId, edit: Edit)
    requires m == s.(retained := m.retained, published := m.published, issued := m.issued, renewals := m.renewals)
    requires StartsOrJoins(m, n, r, edit)
    ensures StartsOrJoins(s, n, r, edit)
  {
  }

  // ----- Sending --------------------------------------------------------------

  lemma LoadedShows(s: Queue)
    ensures ListOf(Loaded(s), s.scope) == Visible(s, s.scope) && Loaded(s).issued == s.issued
    ensures Loaded(s) == s.(retained := Loaded(s).retained, published := Loaded(s).published)
  {
  }

  /** A request that the list already holds: the first edit of it is executed, as it is, and
      no identity is issued. */
  lemma ResentAsItWas(s: Queue, r: RunId, id: Id, op: Id, content: Content, k: nat)
    requires FirstAsking(Visible(s, s.scope), content, k)
    ensures var n, edit := Sent(s, r, id, op, content), Visible(s, s.scope)[k];
            n.issued == s.issued && StartsOrJoins(s, n, r, edit)
  {
    var edit := Visible(s, s.scope)[k];
    LoadedShows(s);
    MatchIsFirst(Visible(s, s.scope), content);
    ExecuteStartsOrJoins(Loaded(s), r, edit);
    StartsFrom(s, Loaded(s), Sent(s, r, id, op, content), r, edit);
  }

  /** One that it does not hold: a new edit with both identities is executed. */
  lemma SentAnew(s: Queue, r: RunId, id: Id, op: Id, content: Content)
    requires !AsksFor(Visible(s, s.scope), content)
    ensures var n := Sent(s, r, id, op, content);
            && n.issued == s.issued[op := Identity(id, content)]
            && StartsOrJoins(s, n, r, Edit(id, content, op, "", None, None))
  {
    var edit := Edit(id, content, op, "", None, None);
    LoadedShows(s);
    MatchIsFirst(Visible(s, s.scope), content);
    var issued := Loaded(s).(issued := s.issued[op := Identity(id, content)]);
    ExecuteStartsOrJoins(issued, r, edit);
    StartsFrom(s, issued, Sent(s, r, id, op, content), r, edit);
  }

  /** What `sendMetadata` promises of identities: the list is asked first, and only a request
      that no retained edit makes gets a new one. */
  ghost predicate Resends(s: Queue, n: Queue, r: RunId, id: Id, op: Id, content: Content)
  {
    && (n.issued == s.issued <==> AsksFor(Visible(s, s.scope), content))
    && (forall k: nat :: FirstAsking(Visible(s, s.scope), content, k) ==>
          StartsOrJoins(s, n, r, Visible(s, s.scope)[k]))
    && (!AsksFor(Visible(s, s.scope), content) ==>
          n.issued == s.issued[op := Identity(id, content)] && Starts(s, n, r, Edit(id, content, op, "", None, None)))
  }

  lemma NewIsNotInFlight(s: Queue, id: Id)
    requires Tidy(s) && EditsGood(s) && FreshEdit(s, id)
    ensures id !in s.inFlight
  {
    forall other | other in s.inFlight
      ensures other != id
    {
      var edit := s.runs[s.inFlight[other]].edit;
      assert Good(s.issued, edit);
      assert s.issued[edit.operation].edit == other;
    }
  }

  lemma SentResends(s: Queue, r: RunId, id: Id, op: Id, content: Content)
    requires Tidy(s) && EditsGood(s) && FreshEdit(s, id) && FreshOperation(s, op)
    ensures Resends(s, Sent(s, r, id, op, content), r, id, op, content)
  {
    var list, n := Visible(s, s.scope), Sent(s, r, id, op, content);
    MatchIsFirst(list, content);
    if AsksFor(list, content) {
      var k: nat :| FirstAsking(list, content, k);
      ResentAsItWas(s, r, id, op, content, k);
      forall j: nat | FirstAsking(list, content, j)
        ensures StartsOrJoins(s, n, r, list[j])
      {
        ResentAsItWas(s, r, id, op, content, j);
      }
    } else {
      SentAnew(s, r, id, op, content);
      NewIsNotInFlight(s, id);
    }
  }

  /** An edit of the active list that is in flight has its own run: it carries the edit's id
      and, when it writes this list, the edit's identity and request. */
  ghost predicate Carried(s: Queue, edit: Edit)
  {
    edit.id in s.inFlight ==>
      && s.inFlight[edit.id] in s.runs
      && var run := s.runs[s.inFlight[edit.id]];
         run.edit.id == edit.id && (run.key == s.scope ==> run.edit == edit)
  }

  lemma ListedIsCarried(s: Queue, edit: Edit)
    requires Tidy(s) && Listed(s) && edit in Visible(s, s.scope)
    ensures Carried(s, edit)
  {
  }

  /** In every history, sending a request that the active list holds issues no identity, and
      starts or joins the run of the first edit that makes it. */
  lemma RetainedRequestIsResent(states: seq<State>, events: seq<Event>, i: nat)
    requires History(states, events) && states[0] == Initial(states[0].queue.scope)
    requires i < |events| && events[i].Send?
    ensures var e := events[i];
            Resends(states[i].queue, states[i + 1].queue, e.run, e.id, e.operation, e.content)
    ensures forall edit :: edit in Visible(states[i].queue, states[i].queue.scope) ==> Carried(states[i].queue, edit)
  {
    var q, e := states[i].queue, events[i];
    HistoryKeepsListed(states, events, i);
    InitialGood(states[0].queue.scope);
    HistoryKeepsEditsGood(states, events, i);
    assert Enabled(states[i], e);
    SentResends(q, e.run, e.id, e.operation, e.content);
    forall edit | edit in Visible(q, q.scope)
      ensures Carried(q, edit)
    {
      ListedIsCarried(q, edit);
    }
  }

  /** As long as a list holds a request, sending it from there never issues an identity. */
  lemma RetainedRequestKeepsItsIdentity(states: seq<State>, events: seq<Event>, i: nat, j: nat, key: Scope,
                                        content: Content)
    requires History(states, events) && states[0] == Initial(states[0].queue.scope) && i <= j < |states|
    requires forall m :: i <= m < j ==> AsksFor(Visible(states[m].queue, key), content)
    ensures forall m :: i <= m < j && events[m].Send? && states[m].queue.scope == key &&
                        SameRequest(events[m].content, content) ==>
              states[m + 1].queue.issued == states[m].queue.issued
  {
    forall m | i <= m < j && events[m].Send? && states[m].queue.scope == key &&
               SameRequest(events[m].content, content)
      ensures states[m + 1].queue.issued == states[m].queue.issued
    {
      RetainedRequestIsResent(states, events, m);
      var e :| e in Visible(states[m].queue, key) && SameRequest(e.content, content);
      assert SameRequest(e.content, events[m].content);
    }
  }

  // ----- Choosing -------------------------------------------------------------

  /** An edit after its owner's review: the reviewed basis and revision, and a new identity
      exactly when there was something to acknowledge. */
  ghost predicate Acknowledged(edit: Edit, reviewed: Edit, first: Id, second: Id)
  {
    var based, settled := edit.recovery.Some?, edit.conflict.Some? && edit.conflict.value.reviewable;
    && reviewed.id == edit.id
    && reviewed.content.url == edit.content.url && reviewed.content.httpMethod == edit.content.httpMethod
    && reviewed.content.body == edit.content.body
    && reviewed.content.basis == (if based then edit.recovery else edit.content.basis)
    && reviewed.content.reviewed.Keys ==
       edit.content.reviewed.Keys + (if settled then {edit.conflict.value.unit} else {})
    && (forall unit :: unit in reviewed.content.reviewed ==>
          reviewed.content.reviewed[unit] ==
            if settled && unit == edit.conflict.value.unit then edit.conflict.value.revision
            else edit.content.reviewed[unit])
    && reviewed.operation == (if settled then second else if based then first else edit.operation)
  }

  lemma ReviewAcknowledges(edit: Edit, first: Id, second: Id)
    ensures Acknowledged(edit, ReviewedEdit(edit, first, second), first, second)
  {
  }

  /** What a choice sends: a retry the very same request, a review the acknowledged one, and
      keeping or discarding nothing. */
  ghost predicate ChoiceAnswers(s: Queue, n: Queue, r: RunId, edit: Edit, choice: Choice, first: Id, second: Id)
  {
    match choice
    case Keep => n.requests == s.requests && n.shown == None && n.issued == s.issued
    case Discard => n.requests == s.requests && n.shown == None && n.issued == s.issued
    case Retry => r in s.runs && Attempts(s, n, r, s.runs[r].key, edit) && n.issued == s.issued
    case Reviewed =>
      r in s.runs && exists reviewed ::
        Acknowledged(edit, reviewed, first, second) && Attempts(s, n, r, s.runs[r].key, reviewed)
  }

  lemma AttemptsFrom(s: Queue, m: Queue, n: Queue, r: RunId, key: Scope, edit: Edit)
    requires m.requests == s.requests && m.blocked == s.blocked && m.shown == s.shown
    requires Attempts(m, n, r, key, edit)
    ensures Attempts(s, n, r, key, edit)
  {
  }

  lemma DismissedShows(s: Queue, r: RunId, discard: bool)
    requires r in s.runs
    ensures var n := AfterChoice(s, r, if discard then Discard else Keep, s.runs[r].edit.id, s.runs[r].edit.id);
            n.requests == s.requests && n.shown == None && n.issued == s.issued
  {
  }

  lemma ReviewedAttempts(s: Queue, r: RunId, first: Id, second: Id)
    requires r in s.runs
    ensures ChoiceAnswers(s, AfterChoice(s, r, Reviewed, first, second), r, s.runs[r].edit, Reviewed, first, second)
  {
    var revised, reviewed := Revised(s, r, first, second), ReviewedEdit(s.runs[r].edit, first, second);
    ReviewAcknowledges(s.runs[r].edit, first, second);
    AttemptAttempts(revised, r);
    assert revised.runs[r].edit == reviewed && revised.runs[r].key == s.runs[r].key;
    AttemptsFrom(s, revised, Attempt(revised, r), r, s.runs[r].key, reviewed);
  }

  lemma AfterChoiceAnswers(s: Queue, r: RunId, choice: Choice, first: Id, second: Id)
    requires r in s.runs
    ensures ChoiceAnswers(s, AfterChoice(s, r, choice, first, second), r, s.runs[r].edit, choice, first, second)
  {
    match choice
    case Keep => DismissedShows(s, r, false);
    case Discard => DismissedShows(s, r, true);
    case Retry => AttemptAttempts(s, r);
    case Reviewed => ReviewedAttempts(s, r, first, second);
  }

  lemma AnswersFrom(s: Queue, m: Queue, n: Queue, r: RunId, edit: Edit, choice: Choice, first: Id, second: Id)
    requires m == s.(waiting := m.waiting) && ChoiceAnswers(m, n, r, edit, choice, first, second)
    ensures ChoiceAnswers(s, n, r, edit, choice, first, second)
  {
    if choice.Reviewed? {
      var reviewed :| Acknowledged(edit, reviewed, first, second) && Attempts(m, n, r, m.runs[r].key, reviewed);
      AttemptsFrom(s, m, n, r, s.runs[r].key, reviewed);
    } else if choice.Retry? {
      AttemptsFrom(s, m, n, r, s.runs[r].key, edit);
    }
  }

  /** A run of the current scope goes on with its owner's choice. */
  lemma ResumedAnswers(s: Queue, r: RunId, first: Id, second: Id)
    requires r in s.runs && s.runs[r].phase.Chosen? && Fenced(s, r)
    ensures ChoiceAnswers(s, Continued(s, r, first, second), r, s.runs[r].edit, s.runs[r].phase.choice, first, second)
  {
    var freed, choice := Freed(s, r), s.runs[r].phase.choice;
    AfterChoiceAnswers(freed, r, choice, first, second);
    AnswersFrom(s, freed, AfterChoice(freed, r, choice, first, second), r, s.runs[r].edit, choice, first, second);
  }

  /** A choice: at an open question it is only noted; elsewhere a retry or a review starts a
      run of the edit, or joins the one it is in flight with. */
  ghost predicate ChoiceStarts(s: Queue, n: Queue, edit: Edit, choice: Choice, r: RunId, first: Id, second: Id)
  {
    if edit.id in s.waiting then
      n == s.(runs := n.runs) && n.runs.Keys == s.runs.Keys
      && forall o :: o in s.runs ==>
           n.runs[o] == if o == s.waiting[edit.id] && s.runs[o].phase.Asking?
                        then s.runs[o].(phase := Chosen(choice)) else s.runs[o]
    else
      match choice
      case Keep => Joins(s.(shown := None), n) && n.issued == s.issued
      case Discard => Joins(s.(shown := None), n) && n.issued == s.issued
      case Retry => StartsOrJoins(s, n, r, edit) && n.issued == s.issued
      case Reviewed =>
        exists reviewed :: Acknowledged(edit, reviewed, first, second) && StartsOrJoins(s, n, r, reviewed)
  }

  lemma ExecuteFrom(s: Queue, m: Queue, r: RunId, edit: Edit)
    requires m == s.(issued := m.issued, renewals := m.renewals)
    ensures StartsOrJoins(s, Execute(m, r, edit), r, edit)
  {
    ExecuteStartsOrJoins(m, r, edit);
    StartsFrom(s, m, Execute(m, r, edit), r, edit);
  }

  lemma ReviewExecutes(s: Queue, edit: Edit, r: RunId, first: Id, second: Id, reviewed: Edit)
    requires reviewed == ReviewedEdit(edit, first, second)
    ensures Acknowledged(edit, reviewed, first, second)
    ensures StartsOrJoins(s, Execute(ReviewedState(s, edit, first, second), r, reviewed), r, reviewed)
  {
    ReviewAcknowledges(edit, first, second);
    ExecuteFrom(s, ReviewedState(s, edit, first, second), r, reviewed);
  }

  lemma ReviewStarts(s: Queue, edit: Edit, r: RunId, first: Id, second: Id, n: Queue)
    requires edit.id !in s.waiting
    requires n == Execute(ReviewedState(s, edit, first, second), r, ReviewedEdit(edit, first, second))
    ensures exists reviewed :: Acknowledged(edit, reviewed, first, second) && StartsOrJoins(s, n, r, reviewed)
  {
    ReviewExecutes(s, edit, r, first, second, ReviewedEdit(edit, first, second));
  }

  lemma ChosenStarts(s: Queue, edit: Edit, choice: Choice, r: RunId, first: Id, second: Id)
    ensures ChoiceStarts(s, ChoiceMade(s, edit, choice, r, first, second), edit, choice, r, first, second)
  {
    if edit.id !in s.waiting {
      match choice
      case Keep => LoadedShows(s);
      case Discard => LoadedShows(s);
      case Retry => ExecuteStartsOrJoins(s, r, edit);
      case Reviewed => ReviewStarts(s, edit, r, first, second, ChoiceMade(s, edit, choice, r, first, second));
    }
  }

  // ----- Failing --------------------------------------------------------------

  /** The attempt failed: its edit is shown, listed last with what went wrong, and its owner is
      asked if anyone is listening. */
  ghost predicate FailureShown(s: Queue, n: Queue, r: RunId, message: string, conflict: Option<Conflict>,
                               recovery: Option<Basis>)
    requires r in s.runs
  {
    var key, edit := s.runs[r].key, s.runs[r].edit;
    var list := ListOf(n, key);
    && n.shown == Some(edit.id) && r in n.runs
    && list != [] && Last(list) == edit.(message := message, conflict := conflict, recovery := recovery)
    && n.runs[r].edit == Last(list) && n.requests == s.requests && n.issued == s.issued
    && (if s.listening then n.runs[r].phase == Asking && n.waiting == s.waiting[edit.id := r]
        else n.runs[r].phase == Ended && n.waiting == s.waiting)
  }

  /** What the owner sees of each answer. */
  ghost predicate AnswerShown(s: Queue, n: Queue, r: RunId, answer: Answer)
    requires r in s.runs
  {
    match answer
    case BasisFetched(basis) =>
      FailureShown(s, n, r, if basis.Some? then REVIEW_FIRST else NO_OPENING, None, basis)
    case Responded(ok) =>
      n == s.(runs := n.runs) && n.runs == s.runs[r := s.runs[r].(phase := if ok then ReadingOk else ReadingError)]
    case Lost => FailureShown(s, n, r, UNCONFIRMED, None, None)
    case OkBody(readable) =>
      if readable then
        && !Named(ListOf(n, s.runs[r].key), s.runs[r].edit.id)
        && n.shown == (if s.shown == Some(s.runs[r].edit.id) then None else s.shown)
      else FailureShown(s, n, r, UNCONFIRMED, None, None)
    case ErrorBody(message, conflict) => FailureShown(s, n, r, message, conflict, None)
  }

  lemma FailedIsShown(s: Queue, r: RunId, message: string, conflict: Option<Conflict>, recovery: Option<Basis>)
    requires r in s.runs
    ensures FailureShown(s, Failed(s, r, message, conflict, recovery), r, message, conflict, recovery)
  {
  }

  lemma AnswerIsShown(s: Queue, r: RunId, answer: Answer)
    requires r in s.runs
    ensures AnswerShown(s, AfterAnswer(s, r, answer), r, answer)
  {
    match answer
    case BasisFetched(basis) => FailedIsShown(s, r, if basis.Some? then REVIEW_FIRST else NO_OPENING, None, basis);
    case Responded(_) =>
    case Lost => FailedIsShown(s, r, UNCONFIRMED, None, None);
    case OkBody(readable) =>
      FailedIsShown(s, r, UNCONFIRMED, None, None);
      NamedDropped(ListOf(s, s.runs[r].key), s.runs[r].edit.id, s.runs[r].edit.id);
    case ErrorBody(message, conflict) => FailedIsShown(s, r, message, conflict, None);
  }
}
