/** Reviews: how often an edit can reach the server, and when two of its requests ask the same
    under different identities. */
module EditReviews {
  import opened Core
  import opened EditBasis
  import opened EditQueue
  import opened EditIdentity
  import opened EditServer
  import opened EditLists
  import opened EditRuns

  /** The edit whose owner chose 'reviewed' in this step, as far as the step acts on it. */
  function ReviewedBy(s: Queue, e: Event): Option<Id>
  {
    if e.Choose? && e.choice.Reviewed? && e.edit.id !in s.waiting then Some(e.edit.id)
    else if e.Resumed? && InRun(s, e.run, Chosen(Reviewed)) then Some(s.runs[e.run].edit.id)
    else None
  }

  /** Renewals grow by at most one, and only for the edit under review. */
  ghost predicate Renews(s: Queue, n: Queue, reviewed: Option<Id>)
  {
    forall id :: Renewals(n, id) <= Renewals(s, id) + if reviewed == Some(id) then 1 else 0
  }

  lemma PlainRenews(s: Queue, n: Queue, reviewed: Option<Id>)
    requires n.renewals == s.renewals
    ensures Renews(s, n, reviewed)
  {
    forall id
      ensures Renewals(n, id) <= Renewals(s, id)
    {
    }
  }

  lemma ReviewRenews(s: Queue, edit: Edit, first: Id, second: Id)
    requires edit.conflict.None? || edit.recovery.None?
    ensures Renews(s, ReviewedState(s, edit, first, second), Some(edit.id))
  {
    var n := ReviewedState(s, edit, first, second);
    forall id
      ensures Renewals(n, id) <= Renewals(s, id) + if Some(edit.id) == Some(id) then 1 else 0
    {
    }
  }

  lemma ThenPlain(s: Queue, m: Queue, n: Queue, reviewed: Option<Id>)
    requires Renews(s, m, reviewed) && n.renewals == m.renewals
    ensures Renews(s, n, reviewed)
  {
    forall id
      ensures Renewals(n, id) <= Renewals(s, id) + if reviewed == Some(id) then 1 else 0
    {
      assert Renewals(n, id) == Renewals(m, id);
    }
  }

  lemma SentRenews(s: Queue, r: RunId, id: Id, op: Id, content: Content)
    ensures Sent(s, r, id, op, content).renewals == s.renewals
  {
    var loaded := Loaded(s);
    match Match(ListOf(loaded, s.scope), content)
    case Some(pending) => ExecutePlain(loaded, r, pending);
    case None =>
      ExecutePlain(loaded.(issued := loaded.issued[op := Identity(id, content)]), r,
                   Edit(id, content, op, "", None, None));
  }

  lemma ChoiceRenews(s: Queue, edit: Edit, choice: Choice, r: RunId, first: Id, second: Id)
    requires edit.conflict.None? || edit.recovery.None?
    ensures Renews(s, ChoiceMade(s, edit, choice, r, first, second),
                   if choice.Reviewed? && edit.id !in s.waiting then Some(edit.id) else None)
  {
    var n := ChoiceMade(s, edit, choice, r, first, second);
    if edit.id in s.waiting {
      PlainRenews(s, n, None);
    } else {
      match choice
      case Keep => KeptRenews(s);
      case Discard => DiscardedRenews(s, edit.id);
      case Retry =>
        ExecutePlain(s, r, edit);
        PlainRenews(s, n, None);
      case Reviewed => ExecutedReviewRenews(s, edit, r, first, second);
    }
  }

  lemma KeptRenews(s: Queue)
    ensures Renews(s, Publish(Loaded(s).(shown := None), s.scope, ListOf(Loaded(s), s.scope)), None)
  {
    PlainRenews(s, Publish(Loaded(s).(shown := None), s.scope, ListOf(Loaded(s), s.scope)), None);
  }

  lemma DiscardedRenews(s: Queue, id: Id)
    ensures Renews(s, Withdraw(Loaded(s).(shown := None), s.scope, id), None)
  {
    PlainRenews(s, Withdraw(Loaded(s).(shown := None), s.scope, id), None);
  }

  lemma ExecutedReviewRenews(s: Queue, edit: Edit, r: RunId, first: Id, second: Id)
    requires edit.conflict.None? || edit.recovery.None?
    ensures Renews(s, Execute(ReviewedState(s, edit, first, second), r, ReviewedEdit(edit, first, second)),
                   Some(edit.id))
  {
    var reviewed := ReviewedState(s, edit, first, second);
    ReviewRenews(s, edit, first, second);
    ExecutePlain(reviewed, r, ReviewedEdit(edit, first, second));
    ThenPlain(s, reviewed, Execute(reviewed, r, ReviewedEdit(edit, first, second)), Some(edit.id));
  }

  lemma AnswerRenews(s: Queue, r: RunId, answer: Answer)
    requires r in s.runs
    ensures AfterAnswer(s, r, answer).renewals == s.renewals
  {
    if answer != Responded(true) {
      AnswerPlain(s, r, answer);
    }
  }

  lemma RevisedRenews(s: Queue, r: RunId, first: Id, second: Id)
    requires r in s.runs && (s.runs[r].edit.conflict.None? || s.runs[r].edit.recovery.None?)
    ensures Renews(s, Attempt(Revised(s, r, first, second), r), Some(s.runs[r].edit.id))
  {
    var revised := Revised(s, r, first, second);
    ReviewRenews(s, s.runs[r].edit, first, second);
    ThenPlain(s, ReviewedState(s, s.runs[r].edit, first, second), revised, Some(s.runs[r].edit.id));
    AttemptPlain(revised, r);
    ThenPlain(s, revised, Attempt(revised, r), Some(s.runs[r].edit.id));
  }

  lemma AfterChoiceRenews(s: Queue, r: RunId, choice: Choice, first: Id, second: Id)
    requires r in s.runs && (s.runs[r].edit.conflict.None? || s.runs[r].edit.recovery.None?)
    ensures Renews(s, AfterChoice(s, r, choice, first, second),
                   if choice.Reviewed? then Some(s.runs[r].edit.id) else None)
  {
    match choice
    case Keep => DismissalRenews(s, r, Publish(s.(shown := None), s.runs[r].key, ListOf(s, s.runs[r].key)));
    case Discard => DismissalRenews(s, r, Withdraw(s.(shown := None), s.runs[r].key, s.runs[r].edit.id));
    case Retry =>
      AttemptPlain(s, r);
      PlainRenews(s, Attempt(s, r), None);
    case Reviewed => RevisedRenews(s, r, first, second);
  }

  lemma DismissalRenews(s: Queue, r: RunId, m: Queue)
    requires m.renewals == s.renewals
    ensures Renews(s, InPhase(m, r, Ended), None)
  {
    PlainRenews(s, InPhase(m, r, Ended), None);
  }

  lemma ContinuedRenews(s: Queue, r: RunId, first: Id, second: Id)
    requires r in s.runs && s.runs[r].phase.Chosen? && (s.runs[r].edit.conflict.None? || s.runs[r].edit.recovery.None?)
    ensures Renews(s, Continued(s, r, first, second),
                   if s.runs[r].phase.choice.Reviewed? then Some(s.runs[r].edit.id) else None)
  {
    var choice := s.runs[r].phase.choice;
    if Fenced(s, r) {
      CurrentRenews(s, r, choice, first, second);
    } else {
      StoppedRenews(s, r, first, second, if choice.Reviewed? then Some(s.runs[r].edit.id) else None);
    }
  }

  lemma StoppedRenews(s: Queue, r: RunId, first: Id, second: Id, reviewed: Option<Id>)
    requires r in s.runs && s.runs[r].phase.Chosen? && !Fenced(s, r)
    ensures Renews(s, Continued(s, r, first, second), reviewed)
  {
    PlainRenews(s, Continued(s, r, first, second), reviewed);
  }

  lemma CurrentRenews(s: Queue, r: RunId, choice: Choice, first: Id, second: Id)
    requires r in s.runs && s.runs[r].phase == Chosen(choice) && Fenced(s, r)
    requires s.runs[r].edit.conflict.None? || s.runs[r].edit.recovery.None?
    ensures Renews(s, Continued(s, r, first, second), if choice.Reviewed? then Some(s.runs[r].edit.id) else None)
  {
    var freed := Freed(s, r);
    AfterChoiceRenews(freed, r, choice, first, second);
    RenewsFrom(s, freed, AfterChoice(freed, r, choice, first, second),
               if choice.Reviewed? then Some(s.runs[r].edit.id) else None);
  }

  lemma RenewsFrom(s: Queue, m: Queue, n: Queue, reviewed: Option<Id>)
    requires m.renewals == s.renewals && Renews(m, n, reviewed)
    ensures Renews(s, n, reviewed)
  {
    forall id
      ensures Renewals(n, id) <= Renewals(s, id) + if reviewed == Some(id) then 1 else 0
    {
      assert Renewals(m, id) == Renewals(s, id);
    }
  }

  lemma AmbientRenews(s: Queue, a: Ambient)
    requires AmbientEnabled(s, a)
    ensures AfterAmbient(s, a).renewals == s.renewals
  {
    AmbientPlain(s, a);
  }

  lemma StepRenews(s: State, e: Event)
    requires EditsGood(s.queue) && Enabled(s, e)
    ensures Renews(s.queue, After(s, e).queue, ReviewedBy(s.queue, e))
  {
    var q, n := s.queue, After(s, e).queue;
    match e
    case Send(r, id, op, content) =>
      SentRenews(q, r, id, op, content);
      PlainRenews(q, n, None);
    case Choose(edit, choice, r, first, second) =>
      assert Good(q.issued, edit);
      ChoiceRenews(q, edit, choice, r, first, second);
    case Answered(r, answer) =>
      AnswerRenews(q, r, answer);
      PlainRenews(q, n, None);
    case Resumed(r, first, second) =>
      assert Good(q.issued, q.runs[r].edit);
      ContinuedRenews(q, r, first, second);
    case ListRead => PlainRenews(q, n, None);
    case Around(a) =>
      AmbientRenews(q, a);
      PlainRenews(q, n, None);
    case Delivered(_, _) => PlainRenews(q, n, None);
  }

  /** How often, in the first `i` steps, an owner's 'reviewed' for this edit took effect. */
  function Reviews(states: seq<State>, events: seq<Event>, id: Id, i: nat): nat
    requires i <= |events| < |states|
  {
    if i == 0 then 0
    else
      Reviews(states, events, id, i - 1) +
      if ReviewedBy(states[i - 1].queue, events[i - 1]) == Some(id) then 1 else 0
  }

  /** In this step, renewals grow no more than reviews. */
  ghost predicate Covered(states: seq<State>, events: seq<Event>, id: Id, k: nat)
    requires k < |events| < |states|
  {
    Renewals(states[k + 1].queue, id) <=
    Renewals(states[k].queue, id) + if ReviewedBy(states[k].queue, events[k]) == Some(id) then 1 else 0
  }

  lemma RenewalsStep(states: seq<State>, events: seq<Event>, id: Id, k: nat)
    requires History(states, events) && states[0] == Initial(states[0].queue.scope) && k < |events|
    ensures Covered(states, events, id, k)
  {
    InitialGood(states[0].queue.scope);
    HistoryKeepsEditsGood(states, events, k);
    assert Enabled(states[k], events[k]);
    StepRenews(states[k], events[k]);
  }

  lemma {:induction false} RenewalsAddUp(states: seq<State>, events: seq<Event>, id: Id, i: nat)
    requires i <= |events| < |states| && Renewals(states[0].queue, id) == 0
    requires forall k :: 0 <= k < i ==> Covered(states, events, id, k)
    ensures Renewals(states[i].queue, id) <= Reviews(states, events, id, i)
  {
    if i > 0 {
      RenewalsAddUp(states, events, id, i - 1);
      assert Covered(states, events, id, i - 1);
    }
  }

  lemma RenewalsAreReviews(states: seq<State>, events: seq<Event>, id: Id, i: nat)
    requires History(states, events) && states[0] == Initial(states[0].queue.scope) && i < |states|
    ensures Renewals(states[i].queue, id) <= Reviews(states, events, id, i)
  {
    forall k | 0 <= k < i
      ensures Covered(states, events, id, k)
    {
      RenewalsStep(states, events, id, k);
    }
    RenewalsAddUp(states, events, id, i);
  }

  /** The server applies an edit at most once, plus once for each time its owner reviewed
      it: an edit never reviewed is applied at most once, whatever else happens. */
  lemma AppliedOncePlusReviews(states: seq<State>, events: seq<Event>, id: Id, i: nat)
    requires History(states, events) && states[0] == Initial(states[0].queue.scope) && i < |states|
    ensures TimesApplied(states[i].server.applied, id) <= 1 + Reviews(states, events, id, i)
  {
    AppliedAtMostOncePerIdentity(states, events, i, id);
    RenewalsAreReviews(states, events, id, i);
  }

  // ----- The same request under two identities --------------------------------

  /** The identity a review issues, and what it is issued for. */
  function ReviewIssue(edit: Edit, first: Id, second: Id): Option<(Id, Identity)>
  {
    if edit.recovery.Some? then Some((first, Identity(edit.id, WithRecovery(edit, first).content)))
    else if edit.conflict.Some? && edit.conflict.value.reviewable then
      Some((second, Identity(edit.id, WithReview(edit, second).content)))
    else None
  }

  /** The identity a step issues. */
  function IssuedBy(s: Queue, e: Event): Option<(Id, Identity)>
  {
    if e.Send? then
      if Match(ListOf(Loaded(s), s.scope), e.content).Some? then None
      else Some((e.operation, Identity(e.id, e.content)))
    else if e.Choose? && e.choice.Reviewed? && e.edit.id !in s.waiting then ReviewIssue(e.edit, e.first, e.second)
    else if e.Resumed? && InRun(s, e.run, Chosen(Reviewed)) && Fenced(s, e.run) then
      ReviewIssue(s.runs[e.run].edit, e.first, e.second)
    else None
  }

  function Issue(issued: map<Id, Identity>, one: Option<(Id, Identity)>): map<Id, Identity>
  {
    if one.Some? then issued[one.value.0 := one.value.1] else issued
  }

  lemma ReviewIssues(s: Queue, edit: Edit, first: Id, second: Id)
    requires edit.conflict.None? || edit.recovery.None?
    ensures ReviewedState(s, edit, first, second).issued == Issue(s.issued, ReviewIssue(edit, first, second))
  {
  }

  lemma SentIssues(s: Queue, r: RunId, id: Id, op: Id, content: Content)
    ensures Sent(s, r, id, op, content).issued == Issue(s.issued, IssuedBy(s, Send(r, id, op, content)))
  {
    var loaded := Loaded(s);
    match Match(ListOf(loaded, s.scope), content)
    case Some(pending) => ExecutePlain(loaded, r, pending);
    case None =>
      ExecutePlain(loaded.(issued := loaded.issued[op := Identity(id, content)]), r,
                   Edit(id, content, op, "", None, None));
  }

  lemma ChoiceIssues(s: Queue, edit: Edit, choice: Choice, r: RunId, first: Id, second: Id)
    requires edit.conflict.None? || edit.recovery.None?
    ensures ChoiceMade(s, edit, choice, r, first, second).issued ==
            Issue(s.issued, IssuedBy(s, Choose(edit, choice, r, first, second)))
  {
    if edit.id !in s.waiting {
      match choice
      case Keep => KeptIssues(s);
      case Discard => DiscardedIssues(s, edit.id);
      case Retry => ExecutePlain(s, r, edit);
      case Reviewed => ReviewedIssues(s, edit, r, first, second);
    }
  }

  lemma KeptIssues(s: Queue)
    ensures Publish(Loaded(s).(shown := None), s.scope, ListOf(Loaded(s), s.scope)).issued == s.issued
  {
  }

  lemma DiscardedIssues(s: Queue, id: Id)
    ensures Withdraw(Loaded(s).(shown := None), s.scope, id).issued == s.issued
  {
  }

  lemma ReviewedIssues(s: Queue, edit: Edit, r: RunId, first: Id, second: Id)
    requires edit.conflict.None? || edit.recovery.None?
    ensures Execute(ReviewedState(s, edit, first, second), r, ReviewedEdit(edit, first, second)).issued ==
            Issue(s.issued, ReviewIssue(edit, first, second))
  {
    ReviewIssues(s, edit, first, second);
    ExecutePlain(ReviewedState(s, edit, first, second), r, ReviewedEdit(edit, first, second));
  }

  lemma AfterChoiceIssues(s: Queue, r: RunId, choice: Choice, first: Id, second: Id)
    requires r in s.runs && (s.runs[r].edit.conflict.None? || s.runs[r].edit.recovery.None?)
    ensures AfterChoice(s, r, choice, first, second).issued ==
            if choice.Reviewed? then Issue(s.issued, ReviewIssue(s.runs[r].edit, first, second)) else s.issued
  {
    match choice
    case Keep =>
    case Discard =>
    case Retry => AttemptPlain(s, r);
    case Reviewed =>
      ReviewIssues(s, s.runs[r].edit, first, second);
      AttemptPlain(Revised(s, r, first, second), r);
  }

  lemma ContinuedIssues(s: Queue, r: RunId, first: Id, second: Id)
    requires r in s.runs && s.runs[r].phase.Chosen? && (s.runs[r].edit.conflict.None? || s.runs[r].edit.recovery.None?)
    ensures Continued(s, r, first, second).issued == Issue(s.issued, IssuedBy(s, Resumed(r, first, second)))
  {
    if !Fenced(s, r) {
      StoppedIssues(s, r, first, second);
    } else if s.runs[r].phase.choice.Reviewed? {
      ResumedReviewIssues(s, r, first, second);
    } else {
      ResumedIssues(s, r, first, second);
    }
  }

  lemma StoppedIssues(s: Queue, r: RunId, first: Id, second: Id)
    requires r in s.runs && s.runs[r].phase.Chosen? && !Fenced(s, r)
    ensures Continued(s, r, first, second).issued == s.issued
  {
  }

  lemma ResumedReviewIssues(s: Queue, r: RunId, first: Id, second: Id)
    requires r in s.runs && s.runs[r].phase == Chosen(Reviewed) && Fenced(s, r)
    requires s.runs[r].edit.conflict.None? || s.runs[r].edit.recovery.None?
    ensures Continued(s, r, first, second).issued == Issue(s.issued, ReviewIssue(s.runs[r].edit, first, second))
  {
    AfterChoiceIssues(Freed(s, r), r, Reviewed, first, second);
  }

  lemma ResumedIssues(s: Queue, r: RunId, first: Id, second: Id)
    requires r in s.runs && s.runs[r].phase.Chosen? && !s.runs[r].phase.choice.Reviewed? && Fenced(s, r)
    requires s.runs[r].edit.conflict.None? || s.runs[r].edit.recovery.None?
    ensures Continued(s, r, first, second).issued == s.issued
  {
    AfterChoiceIssues(Freed(s, r), r, s.runs[r].phase.choice, first, second);
  }

  lemma AnswerIssues(s: Queue, r: RunId, answer: Answer)
    requires r in s.runs
    ensures Guarded(s, r, AfterAnswer(s, r, answer)).issued == s.issued
  {
    if answer != Responded(true) {
      AnswerPlain(s, r, answer);
    }
  }

  lemma PublishedChoiceIssues(s: Queue, edit: Edit, choice: Choice, r: RunId, first: Id, second: Id)
    requires EditsGood(s) && edit in s.published
    ensures ChoiceMade(s, edit, choice, r, first, second).issued ==
            Issue(s.issued, IssuedBy(s, Choose(edit, choice, r, first, second)))
  {
    assert Good(s.issued, edit);
    ChoiceIssues(s, edit, choice, r, first, second);
  }

  lemma GoodContinuedIssues(s: Queue, r: RunId, first: Id, second: Id)
    requires EditsGood(s) && r in s.runs && s.runs[r].phase.Chosen?
    ensures Continued(s, r, first, second).issued == Issue(s.issued, IssuedBy(s, Resumed(r, first, second)))
  {
    assert Good(s.issued, s.runs[r].edit);
    ContinuedIssues(s, r, first, second);
  }

  lemma StepIssues(s: State, e: Event)
    requires EditsGood(s.queue) && Enabled(s, e)
    ensures After(s, e).queue.issued == Issue(s.queue.issued, IssuedBy(s.queue, e))
  {
    var q := s.queue;
    match e
    case Send(r, id, op, content) => SentIssues(q, r, id, op, content);
    case Choose(edit, choice, r, first, second) => PublishedChoiceIssues(q, edit, choice, r, first, second);
    case Answered(r, answer) => AnswerIssues(q, r, answer);
    case Resumed(r, first, second) => GoodContinuedIssues(q, r, first, second);
    case ListRead => LoadedPlain(q);
    case Around(a) => AmbientPlain(q, a);
    case Delivered(_, _) =>
  }

  lemma IssueIsNew(s: State, e: Event)
    requires Enabled(s, e)
    ensures IssuedBy(s.queue, e).Some? ==> IssuedBy(s.queue, e).value.0 !in s.queue.issued
  {
  }

  ghost predicate Carried(issued: map<Id, Identity>, owner: Identity)
  {
    exists op :: op in issued && issued[op] == owner
  }

  /** Two operation identities of the edit carry the same request. */
  ghost predicate Twins(issued: map<Id, Identity>, id: Id)
  {
    exists a, b :: a in issued && b in issued && a != b && issued[a] == issued[b] && issued[a].edit == id
  }

  /** This step issues an identity of the edit for a request the edit already carries. */
  ghost predicate Repeats(s: Queue, e: Event, id: Id)
  {
    var one := IssuedBy(s, e);
    one.Some? && one.value.1.edit == id && Carried(s.issued, one.value.1)
  }

  lemma IssueTwins(issued: map<Id, Identity>, op: Id, owner: Identity, id: Id)
    requires op !in issued
    ensures Twins(issued[op := owner], id) <==> Twins(issued, id) || (owner.edit == id && Carried(issued, owner))
  {
    var later := issued[op := owner];
    if Twins(later, id) {
      var a, b :| a in later && b in later && a != b && later[a] == later[b] && later[a].edit == id;
      if a == op {
        assert issued[b] == owner;
      } else if b == op {
        assert issued[a] == owner;
      } else {
        assert issued[a] == issued[b];
      }
    }
    if Twins(issued, id) {
      var a, b :| a in issued && b in issued && a != b && issued[a] == issued[b] && issued[a].edit == id;
      assert later[a] == later[b];
    }
    if owner.edit == id && Carried(issued, owner) {
      var a :| a in issued && issued[a] == owner;
      assert later[a] == later[op];
    }
  }

  lemma TwinsStep(s: State, e: Event, id: Id)
    requires EditsGood(s.queue) && Enabled(s, e)
    ensures Twins(After(s, e).queue.issued, id) <==> Twins(s.queue.issued, id) || Repeats(s.queue, e, id)
  {
    StepIssues(s, e);
    IssueIsNew(s, e);
    var one := IssuedBy(s.queue, e);
    if one.Some? {
      IssueTwins(s.queue.issued, one.value.0, one.value.1, id);
    }
  }

  ghost predicate RepeatsAt(states: seq<State>, events: seq<Event>, id: Id, j: nat)
    requires j < |events| < |states|
  {
    Repeats(states[j].queue, events[j], id)
  }

  /** From this step to the next, twins come only from a repeat. */
  ghost predicate TwinsFrom(states: seq<State>, events: seq<Event>, id: Id, j: nat)
    requires j < |events| < |states|
  {
    Twins(states[j + 1].queue.issued, id) <==> Twins(states[j].queue.issued, id) || RepeatsAt(states, events, id, j)
  }

  lemma TwinsStepAt(states: seq<State>, events: seq<Event>, id: Id, j: nat)
    requires History(states, events) && states[0] == Initial(states[0].queue.scope) && j < |events|
    ensures TwinsFrom(states, events, id, j)
  {
    InitialGood(states[0].queue.scope);
    HistoryKeepsEditsGood(states, events, j);
    assert Enabled(states[j], events[j]);
    TwinsStep(states[j], events[j], id);
  }

  lemma {:induction false} TwinsAddUp(states: seq<State>, events: seq<Event>, id: Id, i: nat)
    requires i <= |events| < |states| && !Twins(states[0].queue.issued, id)
    requires forall j: nat :: j < i ==> TwinsFrom(states, events, id, j)
    ensures Twins(states[i].queue.issued, id) <==> exists j: nat :: j < i && RepeatsAt(states, events, id, j)
  {
    if i > 0 {
      TwinsAddUp(states, events, id, i - 1);
      assert TwinsFrom(states, events, id, i - 1);
    }
  }

  /** In every history, two identities of one edit carry the same request if and only if some
      earlier step issued one for a request the edit already carried. */
  lemma TwinsIffRepeated(states: seq<State>, events: seq<Event>, id: Id, i: nat)
    requires History(states, events) && states[0] == Initial(states[0].queue.scope) && i < |states|
    ensures Twins(states[i].queue.issued, id) <==> exists j: nat :: j < i && RepeatsAt(states, events, id, j)
  {
    forall j: nat | j < i
      ensures TwinsFrom(states, events, id, j)
    {
      TwinsStepAt(states, events, id, j);
    }
    assert states[0].queue.issued == map[];
    TwinsAddUp(states, events, id, i);
  }

  /** What a review acknowledges is new to the edit: no identity of it carries the recovered
      basis, or the conflict's revision. */
  ghost predicate NewToEdit(issued: map<Id, Identity>, edit: Edit)
  {
    forall op :: op in issued && issued[op].edit == edit.id ==>
      if edit.recovery.Some? then issued[op].content.basis != edit.recovery
      else edit.conflict.Some? ==>
        edit.conflict.value.unit !in issued[op].content.reviewed ||
        issued[op].content.reviewed[edit.conflict.value.unit] != edit.conflict.value.revision
  }

  /** The edit a review step acts on. */
  function UnderReview(s: Queue, e: Event): Option<Edit>
  {
    if e.Choose? && e.choice.Reviewed? && e.edit.id !in s.waiting then Some(e.edit)
    else if e.Resumed? && InRun(s, e.run, Chosen(Reviewed)) && Fenced(s, e.run) then Some(s.runs[e.run].edit)
    else None
  }

  lemma NewReviewDoesNotRepeat(s: State, e: Event, id: Id)
    requires Enabled(s, e)
    requires UnderReview(s.queue, e).Some? ==> NewToEdit(s.queue.issued, UnderReview(s.queue, e).value)
    ensures !Repeats(s.queue, e, id)
  {
    var issued, one := s.queue.issued, IssuedBy(s.queue, e);
    if one.Some? {
      if UnderReview(s.queue, e).Some? {
        IssueContent(UnderReview(s.queue, e).value, e.first, e.second, one.value.0);
        NewIsNotCarried(issued, UnderReview(s.queue, e).value, one.value.0);
      } else {
        assert forall op :: op in issued ==> issued[op].edit != e.id;
      }
    }
  }

  lemma NewIsNotCarried(issued: map<Id, Identity>, edit: Edit, op: Id)
    requires NewToEdit(issued, edit) && ReviewIssue(edit, op, op).Some?
    ensures !Carried(issued, ReviewIssue(edit, op, op).value.1)
  {
    var owner := ReviewIssue(edit, op, op).value.1;
    if edit.recovery.Some? {
      assert owner.content.basis == edit.recovery;
    } else {
      assert owner.content.reviewed[edit.conflict.value.unit] == edit.conflict.value.revision;
    }
    forall other | other in issued
      ensures issued[other] != owner
    {
    }
  }

  lemma IssueContent(edit: Edit, first: Id, second: Id, op: Id)
    ensures ReviewIssue(edit, first, second).Some? <==> ReviewIssue(edit, op, op).Some?
    ensures ReviewIssue(edit, op, op).Some? ==>
            ReviewIssue(edit, first, second).value.1 == ReviewIssue(edit, op, op).value.1
  {
  }

  /** As long as every review acknowledges something new to its edit, two requests of one edit
      that ask the same carry the same identity, and the server can tell a repeat. */
  lemma NewReviewsAreTold(states: seq<State>, events: seq<Event>, i: nat, a: Request, b: Request)
    requires History(states, events) && states[0] == Initial(states[0].queue.scope) && i < |states|
    requires forall j: nat :: j < i && UnderReview(states[j].queue, events[j]).Some? ==>
               NewToEdit(states[j].queue.issued, UnderReview(states[j].queue, events[j]).value)
    requires a in states[i].queue.requests && b in states[i].queue.requests && a.edit == b.edit &&
             a.content == b.content
    ensures a.operation == b.operation
  {
    forall j: nat | j < i
      ensures !RepeatsAt(states, events, a.edit, j)
    {
      assert Enabled(states[j], events[j]);
      NewReviewDoesNotRepeat(states[j], events[j], a.edit);
    }
    TwinsIffRepeated(states, events, a.edit, i);
    InitialGood(states[0].queue.scope);
    HistoryKeepsEditsGood(states, events, i);
    assert GoodRequest(states[i].queue.issued, a) && GoodRequest(states[i].queue.issued, b);
  }

  /** The edit already acknowledges the revision it conflicts with, or already opens from the
      basis that was recovered for it: its owner has answered this before. */
  predicate AlreadyAnswered(edit: Edit)
  {
    if edit.recovery.Some? then edit.content.basis == edit.recovery
    else
      && edit.conflict.Some? && edit.conflict.value.reviewable && edit.conflict.value.unit in edit.content.reviewed
      && edit.content.reviewed[edit.conflict.value.unit] == edit.conflict.value.revision
  }

  lemma AnsweredAsksTheSame(edit: Edit, first: Id, second: Id)
    requires AlreadyAnswered(edit) && (edit.conflict.None? || edit.recovery.None?)
    ensures ReviewIssue(edit, first, second).Some?
    ensures ReviewIssue(edit, first, second).value.1 == Identity(edit.id, edit.content)
  {
    if edit.recovery.None? {
      var c := edit.conflict.value;
      assert edit.content.reviewed[c.unit := c.revision] == edit.content.reviewed;
    }
  }

  lemma UnderReviewIsGood(s: State, e: Event)
    requires EditsGood(s.queue) && Enabled(s, e) && UnderReview(s.queue, e).Some?
    ensures Good(s.queue.issued, UnderReview(s.queue, e).value)
    ensures IssuedBy(s.queue, e) == ReviewIssue(UnderReview(s.queue, e).value, e.first, e.second)
  {
  }

  /** In every history, a review that takes effect on an edit already answered leaves the edit
      with two identities for one request. */
  lemma AnsweredReviewMakesTwins(states: seq<State>, events: seq<Event>, i: nat)
    requires History(states, events) && states[0] == Initial(states[0].queue.scope) && i < |events|
    requires UnderReview(states[i].queue, events[i]).Some? &&
             AlreadyAnswered(UnderReview(states[i].queue, events[i]).value)
    ensures Twins(states[i + 1].queue.issued, UnderReview(states[i].queue, events[i]).value.id)
  {
    InitialGood(states[0].queue.scope);
    HistoryKeepsEditsGood(states, events, i);
    assert Enabled(states[i], events[i]);
    AnsweredReviewAt(states[i], events[i]);
  }

  lemma AnsweredReviewAt(s: State, e: Event)
    requires EditsGood(s.queue) && Enabled(s, e)
    requires UnderReview(s.queue, e).Some? && AlreadyAnswered(UnderReview(s.queue, e).value)
    ensures Twins(After(s, e).queue.issued, UnderReview(s.queue, e).value.id)
  {
    var edit := UnderReview(s.queue, e).value;
    UnderReviewIsGood(s, e);
    AnsweredAsksTheSame(edit, e.first, e.second);
    assert s.queue.issued[edit.operation] == Identity(edit.id, edit.content);
    TwinsStep(s, e, edit.id);
  }
}
