/** The module state of `metadataEdits.ts` and `requestScope.ts`, changed step by step. Each
    public method is one stretch of code between awaits: it takes the page one step further
    in a history of the machine, so whatever every history keeps, the page keeps. */
module EditPage {
  import opened Core
  import opened EditBasis
  import opened EditQueue
  import opened EditIdentity
  import opened EditServer
  import opened EditLists
  import opened EditRuns
  import opened EditKeeping
  import opened EditPromises
  import opened EditReviews
  import opened EditRequests

  /** `items.filter((item) => item.id !== id)` */
  method Without(items: seq<Edit>, id: Id) returns (rest: seq<Edit>)
    ensures rest == Dropped(items, id)
    ensures forall e :: e in rest <==> e in items && e.id != id
  {
    rest := [];
    for i := 0 to |items|
      invariant rest == Dropped(items[..i], id)
      invariant forall e :: e in rest <==> e in items[..i] && e.id != id
    {
      assert Init(items[..i + 1]) == items[..i];
      assert items[..i + 1] == items[..i] + [items[i]];
      if items[i].id != id {
        rest := rest + [items[i]];
      }
    }
    assert items[..|items|] == items;
  }

  /** `stored.filter(validPending).map(...)` */
  method ReadBack(items: seq<Edit>, scope: Scope) returns (list: seq<Edit>)
    ensures list == RecoveredList(items, scope)
  {
    list := [];
    for i := 0 to |items|
      invariant list == RecoveredList(items[..i], scope)
    {
      assert Init(items[..i + 1]) == items[..i];
      var valid := ValidPending(items[i], scope);
      if valid {
        list := list + [Recovered(items[i])];
      }
    }
    assert items[..|items|] == items;
  }

  /** `pendingEdits().find(...)`: the first retained edit of the same request. */
  method FindPending(items: seq<Edit>, content: Content) returns (pending: Option<Edit>)
    ensures pending == Match(items, content)
    ensures pending.None? <==> !AsksFor(items, content)
    ensures forall k: nat :: FirstAsking(items, content, k) ==> pending == Some(items[k])
  {
    MatchIsFirst(items, content);
    var i := 0;
    while i < |items|
      invariant 0 <= i <= |items|
      invariant Match(items, content) == Match(items[i..], content)
    {
      if items[i].content.(reviewed := map[]) == content.(reviewed := map[]) {
        return Some(items[i]);
      }
      assert items[i..][1..] == items[i + 1..];
      i := i + 1;
    }
    return None;
  }

  /** Every question outside `left` has been answered 'keep'. */
  ghost predicate AnsweredSoFar(before: map<RunId, Run>, runs: map<RunId, Run>, left: set<Id>)
  {
    && runs.Keys == before.Keys
    && forall r :: r in before ==>
         runs[r] == (if before[r].phase.Asking? && before[r].edit.id !in left then before[r].(phase := Chosen(Keep))
                     else before[r])
  }

  lemma AnswerOne(before: map<RunId, Run>, runs: map<RunId, Run>, waiting: map<Id, RunId>, left: set<Id>, id: Id)
    requires WaitersListed(before, waiting, None) && AnsweredSoFar(before, runs, left) && id in left && id in waiting
    ensures var r := waiting[id];
            && r in runs
            && AnsweredSoFar(before, if runs[r].phase.Asking? then runs[r := runs[r].(phase := Chosen(Keep))]
                             else runs, left - {id})
  {
    var r := waiting[id];
    var next := if runs[r].phase.Asking? then runs[r := runs[r].(phase := Chosen(Keep))] else runs;
    forall o | o in before
      ensures next[o] == (if before[o].phase.Asking? && before[o].edit.id !in left - {id}
                          then before[o].(phase := Chosen(Keep)) else before[o])
    {
      assert before[o].phase.Asking? && before[o].edit.id == id ==> o == r;
    }
  }

  lemma AllAnswered(before: map<RunId, Run>, runs: map<RunId, Run>, waiting: map<Id, RunId>)
    requires WaitersListed(before, waiting, None) && AnsweredSoFar(before, runs, {})
    ensures runs == map r | r in before :: if before[r].phase.Asking? then before[r].(phase := Chosen(Keep))
            else before[r]
  {
  }

  /** `for (const resume of waiting.values()) resume('keep')` */
  method AnswerAll(runs: map<RunId, Run>, waiting: map<Id, RunId>) returns (answered: map<RunId, Run>)
    requires WaitersListed(runs, waiting, None)
    ensures answered == map r | r in runs :: if runs[r].phase.Asking? then runs[r].(phase := Chosen(Keep)) else runs[r]
  {
    answered := runs;
    var left := waiting.Keys;
    while left != {}
      invariant left <= waiting.Keys && AnsweredSoFar(runs, answered, left)
    {
      var id :| id in left;
      AnswerOne(runs, answered, waiting, left, id);
      var r := waiting[id];
      if answered[r].phase.Asking? {
        answered := answered[r := answered[r].(phase := Chosen(Keep))];
      }
      left := left - {id};
    }
    AllAnswered(runs, answered, waiting);
  }

  // ----- What a call promises -------------------------------------------------

  /** Whatever the owner could see and no longer sees left for one of the three reasons. */
  ghost predicate LosesOnly(s: Queue, n: Queue, e: Event)
    requires (e.Answered? || e.Resumed?) ==> e.run in s.runs
  {
    forall key, id :: Named(Visible(s, key), id) ==>
      (!Named(Visible(n, key), id) <==>
       (Leaves(s, e, key, id) || (StartsUnread(s, e) && key == s.scope && id != e.edit.id)))
  }

  ghost predicate SameLists(s: Queue, n: Queue)
  {
    forall key :: Visible(n, key) == Visible(s, key) && Stored(n, key) == Stored(s, key)
  }

  /** The server has applied exactly this edit's request. */
  ghost predicate AppliedFor(server: Server, edit: Edit)
  {
    exists k :: 0 <= k < |server.applied| &&
      server.applied[k].edit == edit.id && server.applied[k].operation == edit.operation &&
          server.applied[k].content == edit.content
  }

  lemma StepLosesOnly(s: State, e: Event)
    requires Tidy(s.queue) && Listed(s.queue) && Enabled(s, e) && !Unsettling(e)
    ensures LosesOnly(s.queue, After(s, e).queue, e)
  {
    forall key, id | Named(Visible(s.queue, key), id)
      ensures !Named(Visible(After(s, e).queue, key), id) <==>
                Leaves(s.queue, e, key, id) || (StartsUnread(s.queue, e) && key == s.queue.scope && id != e.edit.id)
    {
      LostIff(s, e, key, id);
    }
  }

  /** Everything every history keeps, of the state a page is in. */
  lemma HistoryPromises(states: seq<State>, events: seq<Event>)
    requires History(states, events) && states[0] == Initial(states[0].queue.scope)
    ensures Tidy(Last(states).queue) && Listed(Last(states).queue) && EditsGood(Last(states).queue)
  {
    HistoryKeepsListed(states, events, |events|);
    InitialGood(states[0].queue.scope);
    HistoryKeepsEditsGood(states, events, |events|);
  }

  lemma ExecutedIsListed(s: Queue, r: RunId, edit: Edit, content: Content)
    requires SameRequest(edit.content, content) && (edit.id in s.inFlight ==> edit in ListOf(s, s.scope))
    ensures AsksFor(ListOf(Execute(s, r, edit), s.scope), content)
  {
    if edit.id !in s.inFlight {
      ExecuteWrites(s, r, edit);
      var list := Dropped(ListOf(s, s.scope), edit.id) + [Attempted(s, edit)];
      assert list[|list| - 1] == Attempted(s, edit);
    }
  }

  /** What is asked for is in the list, whether it is new, pending or already on its way. */
  lemma SentIsListed(s: Queue, r: RunId, id: Id, op: Id, content: Content)
    requires Tidy(s) && EditsGood(s) && FreshEdit(s, id)
    ensures AsksFor(ListOf(Sent(s, r, id, op, content), s.scope), content)
  {
    var loaded := Loaded(s);
    MatchedIsListed(ListOf(loaded, s.scope), content);
    match Match(ListOf(loaded, s.scope), content)
    case Some(pending) => ExecutedIsListed(loaded, r, pending, content);
    case None =>
      NewIsNotInFlight(s, id);
      var issued := loaded.(issued := loaded.issued[op := Identity(id, content)]);
      ExecutedIsListed(issued, r, Edit(id, content, op, "", None, None), content);
  }

  /** No edit that the owner could see has left. */
  ghost predicate LosesNothing(s: Queue, n: Queue)
  {
    forall key, id :: Named(Visible(s, key), id) ==> Named(Visible(n, key), id)
  }

  /** The page shows what storage held. */
  ghost predicate ReadsBack(s: Queue, n: Queue)
  {
    forall key :: Visible(n, key) == RecoveredList(Stored(s, key), key)
  }

  /** The machine can go from `s` to `n` by `e`. */
  ghost predicate Made(s: State, e: Event, n: State)
  {
    History([s, n], [e])
  }

  lemma MakeStep(s: State, e: Event, n: State)
    requires Enabled(s, e) && n == After(s, e)
    ensures Made(s, e, n)
  {
  }

  lemma StepMade(s: State, e: Event, n: State)
    requires Made(s, e, n)
    ensures Enabled(s, e) && n == After(s, e)
  {
    assert [e][0] == e && [s, n][0] == s && [s, n][1] == n;
  }

  lemma SendMade(s: State, r: RunId, id: Id, op: Id, content: Content, n: State)
    requires Enabled(s, Send(r, id, op, content)) && n == State(Sent(s.queue, r, id, op, content), s.server)
    ensures Made(s, Send(r, id, op, content), n)
  {
    MakeStep(s, Send(r, id, op, content), n);
  }

  lemma ChoiceStepMade(s: State, edit: Edit, choice: Choice, r: RunId, first: Id, second: Id, n: State)
    requires Enabled(s, Choose(edit, choice, r, first, second))
    requires n == State(ChoiceMade(s.queue, edit, choice, r, first, second), s.server)
    ensures Made(s, Choose(edit, choice, r, first, second), n)
  {
    MakeStep(s, Choose(edit, choice, r, first, second), n);
  }

  lemma AnswerMade(s: State, r: RunId, answer: Answer, n: State)
    requires Enabled(s, Answered(r, answer)) && n == State(Guarded(s.queue, r, AfterAnswer(s.queue, r, answer)),
                                                           s.server)
    ensures Made(s, Answered(r, answer), n)
  {
    MakeStep(s, Answered(r, answer), n);
  }

  lemma ContinuedMade(s: State, r: RunId, first: Id, second: Id, n: State)
    requires Enabled(s, Resumed(r, first, second)) && n == State(Continued(s.queue, r, first, second), s.server)
    ensures Made(s, Resumed(r, first, second), n)
  {
    MakeStep(s, Resumed(r, first, second), n);
  }

  lemma SendMeans(s: State, r: RunId, id: Id, op: Id, content: Content, n: State)
    requires Tidy(s.queue) && Listed(s.queue) && EditsGood(s.queue) && Made(s, Send(r, id, op, content), n)
    ensures n.queue.scope == s.queue.scope && AsksFor(ListOf(n.queue, n.queue.scope), content)
    ensures SendsWritten(s.queue, n.queue, r) && LosesNothing(s.queue, n.queue)
    ensures Resends(s.queue, n.queue, r, id, op, content)
  {
    StepMade(s, Send(r, id, op, content), n);
    SentResends(s.queue, r, id, op, content);
    SentIsListed(s.queue, r, id, op, content);
    SentSends(s.queue, r, id, op, content);
    SentScope(s.queue, r, id, op, content);
    SendLosesNothing(s, Send(r, id, op, content));
  }

  lemma SendLosesNothing(s: State, e: Event)
    requires Tidy(s.queue) && Listed(s.queue) && Enabled(s, e) && e.Send?
    ensures LosesNothing(s.queue, After(s, e).queue)
  {
    StepLosesOnly(s, e);
    OnlyLeaversAreLost(s.queue, After(s, e).queue, e);
  }

  lemma OnlyLeaversAreLost(s: Queue, n: Queue, e: Event)
    requires e.Send? && LosesOnly(s, n, e)
    ensures LosesNothing(s, n)
  {
  }

  lemma SentScope(s: Queue, r: RunId, id: Id, op: Id, content: Content)
    ensures Sent(s, r, id, op, content).scope == s.scope
  {
    var loaded := Loaded(s);
    match Match(ListOf(loaded, s.scope), content)
    case Some(pending) => ExecuteScope(loaded, r, pending);
    case None =>
      ExecuteScope(loaded.(issued := loaded.issued[op := Identity(id, content)]), r,
                   Edit(id, content, op, "", None, None));
  }

  lemma ExecuteScope(s: Queue, r: RunId, edit: Edit)
    ensures Execute(s, r, edit).scope == s.scope
  {
    if edit.id !in s.inFlight {
      AttemptTouches(Started(s, r, edit), r);
    }
  }

  /** What a choice promises: an edit leaves only as it may, what goes out is written, and it is
      the chosen edit's request. */
  ghost predicate ChoiceDone(s: Queue, n: Queue, edit: Edit, choice: Choice, r: RunId, first: Id, second: Id)
  {
    && LosesOnly(s, n, Choose(edit, choice, r, first, second))
    && SendsWritten(s, n, r) && ChoiceStarts(s, n, edit, choice, r, first, second)
  }

  lemma ChoiceMeans(s: State, edit: Edit, choice: Choice, r: RunId, first: Id, second: Id, n: State)
    requires Tidy(s.queue) && Listed(s.queue) && Made(s, Choose(edit, choice, r, first, second), n)
    ensures ChoiceDone(s.queue, n.queue, edit, choice, r, first, second)
  {
    StepMade(s, Choose(edit, choice, r, first, second), n);
    ChosenStarts(s.queue, edit, choice, r, first, second);
    StepLosesOnly(s, Choose(edit, choice, r, first, second));
    ChoiceSends(s.queue, edit, choice, r, first, second);
  }

  lemma ContinuedMeans(s: State, r: RunId, first: Id, second: Id, n: State)
    requires Tidy(s.queue) && Listed(s.queue) && Made(s, Resumed(r, first, second), n)
    ensures r in s.queue.runs && LosesOnly(s.queue, n.queue, Resumed(r, first, second)) &&
            SendsWritten(s.queue, n.queue, r)
    ensures Superseded(s.queue, r) ==> n.queue == s.queue.(runs := n.queue.runs, waiting := n.queue.waiting)
    ensures Fenced(s.queue, r) && s.queue.runs[r].phase.Chosen? ==>
              ChoiceAnswers(s.queue, n.queue, r, s.queue.runs[r].edit, s.queue.runs[r].phase.choice, first, second)
  {
    StepMade(s, Resumed(r, first, second), n);
    if Fenced(s.queue, r) {
      ResumedAnswers(s.queue, r, first, second);
    }
    StepLosesOnly(s, Resumed(r, first, second));
    ContinuedSends(s.queue, r, first, second);
  }

  lemma AnswerMeans(s: State, r: RunId, answer: Answer, n: State)
    requires Tidy(s.queue) && Listed(s.queue) && Made(s, Answered(r, answer), n)
    ensures r in s.queue.runs && LosesOnly(s.queue, n.queue, Answered(r, answer)) &&
            n.queue.requests == s.queue.requests
    ensures Superseded(s.queue, r) ==> n.queue == s.queue.(runs := n.queue.runs)
    ensures Fenced(s.queue, r) ==> AnswerShown(s.queue, n.queue, r, answer)
  {
    StepMade(s, Answered(r, answer), n);
    StepLosesOnly(s, Answered(r, answer));
    AnsweredIsNotWaiting(s.queue, s.server, r, answer);
    AnswerSends(s.queue, r, answer);
    if Fenced(s.queue, r) {
      AnswerIsShown(s.queue, r, answer);
    }
  }

  lemma AcceptedIsApplied(states: seq<State>, events: seq<Event>, s: State, r: RunId, n: State)
    requires History(states, events) && states[0] == Initial(states[0].queue.scope) && Last(states) == s
    requires Made(s, Answered(r, OkBody(true)), n)
    ensures r in s.queue.runs && AppliedFor(s.server, s.queue.runs[r].edit)
  {
    StepMade(s, Answered(r, OkBody(true)), n);
    Append(states, events, Answered(r, OkBody(true)), n);
    AcceptedWasApplied(states + [n], events + [Answered(r, OkBody(true))], |events|);
  }

  ghost predicate NoRunOf(runs: map<RunId, Run>, id: Id)
  {
    forall r :: r in runs ==> runs[r].edit.id != id
  }

  lemma ReapMeans(s: State, r: RunId, n: State)
    requires Tidy(s.queue) && InRun(s.queue, r, Ended) && n == State(Reap(s.queue, r), s.server)
    ensures Made(s, Around(Reaped(r)), n) && SameLists(s.queue, n.queue) &&
            NoRunOf(n.queue.runs, s.queue.runs[r].edit.id)
  {
    MakeStep(s, Around(Reaped(r)), n);
  }

  lemma ReloadMeans(s: State, next: Scope, n: State)
    requires n == State(PageReload(s.queue, next), s.server)
    ensures Made(s, Around(Reloaded(next)), n) && ReadsBack(s.queue, n.queue)
  {
    MakeStep(s, Around(Reloaded(next)), n);
    assert forall key :: Stored(n.queue, key) == Stored(s.queue, key);
  }

  lemma SurroundMeans(s: State, listening: bool, blocked: bool, storageWorks: bool, n: State)
    requires n == State(s.queue.(listening := listening, blocked := blocked, storageWorks := storageWorks), s.server)
    ensures Made(s, Around(Surroundings(listening, blocked, storageWorks)), n) && SameLists(s.queue, n.queue)
  {
    MakeStep(s, Around(Surroundings(listening, blocked, storageWorks)), n);
    UnsettledLists(s.queue, Surroundings(listening, blocked, storageWorks));
  }

  lemma AdvanceSupersedes(s: State, e: Event)
    requires Tidy(s.queue) && Enabled(s, e) && Advances(e)
    ensures forall r :: r in s.queue.usedRuns ==> Superseded(After(s, e).queue, r)
    ensures forall r :: r in After(s, e).queue.runs ==> !After(s, e).queue.runs[r].phase.Asking?
    ensures SameLists(s.queue, After(s, e).queue)
  {
    forall r | r in s.queue.usedRuns
      ensures Superseded(After(s, e).queue, r)
    {
      SupersededStays(s, e, r);
    }
  }

  class MetadataEdits {
    var retained: map<Scope, seq<Edit>>
    var waiting: map<Id, RunId>
    var inFlight: map<Id, RunId>
    var runs: map<RunId, Run>
    var shown: Option<Id>
    var connection: nat
    var library: nat
    var scope: Scope
    var listening: bool
    var blocked: bool
    var storageWorks: bool
    var stored: map<Scope, seq<Edit>>
    ghost var requests: seq<Request>
    ghost var issued: map<Id, Identity>
    ghost var renewals: map<Id, nat>
    ghost var published: set<Edit>
    ghost var usedRuns: set<RunId>
    ghost var server: Server
    ghost var states: seq<State>
    ghost var events: seq<Event>

    ghost function Now(): Queue
      reads this
    {
      Queue(retained, waiting, inFlight, runs, shown, connection, library, scope,
            listening, blocked, storageWorks, stored, requests, issued, renewals, published, usedRuns)
    }

    ghost function Here(): State
      reads this
    {
      State(Now(), server)
    }

    /** The page is where its history has brought it. */
    ghost predicate Valid()
      reads this
    {
      History(states, events) && states[0] == Initial(states[0].queue.scope) && Last(states) == Here()
    }

    /** The call was this step. */
    twostate predicate Took(e: Event)
      reads this
    {
      Valid() && events == old(events) + [e] && states == old(states) + [Here()]
    }

    constructor (scope: Scope)
      ensures Valid() && events == [] && Here() == Initial(scope)
    {
      retained, waiting, inFlight, runs := map[], map[], map[], map[];
      shown, connection, library := None, 0, 0;
      this.scope := scope;
      listening, blocked, storageWorks, stored := false, false, true, map[];
      requests, issued, renewals, published, usedRuns := [], map[], map[], {}, {};
      server := Server(map[], []);
      states, events := [Initial(scope)], [];
    }

    ghost method Note(before: State, e: Event)
      requires History(states, events) && states[0] == Initial(states[0].queue.scope) && Last(states) == before
      requires Made(before, e, Here())
      modifies `states, `events
      ensures Took(e) && Now() == old(Now()) && Here() == old(Here())
    {
      StepMade(before, e, Here());
      Append(states, events, e, Here());
      states, events := states + [Here()], events + [e];
    }

    // ----- Lists ----------------------------------------------------------------

    method ReadList() returns (list: seq<Edit>)
      modifies `retained, `published
      ensures Now() == Loaded(old(Now())) && list == ListOf(Now(), scope)
    {
      if scope !in retained {
        list := ReadBack(if scope in stored then stored[scope] else [], scope);
        retained := retained[scope := list];
        published := published + Elems(list);
      }
      list := retained[scope];
    }

    /** `pendingEdits()`: reading shows what was shown, and changes nothing the owner sees. */
    method PendingEdits() returns (list: seq<Edit>)
      requires Valid()
      modifies this
      ensures Took(ListRead) && list == old(Visible(Now(), scope)) && SameLists(old(Now()), Now())
    {
      ghost var before := Here();
      list := ReadList();
      LoadedKeepsLists(before.queue);
      MakeStep(before, ListRead, Here());
      Note(before, ListRead);
    }

    method Publish(key: Scope, items: seq<Edit>)
      modifies `retained, `stored, `published
      ensures Now() == EditQueue.Publish(old(Now()), key, items)
    {
      retained := retained[key := items];
      if storageWorks {
        stored := stored[key := items];
      }
      published := published + Elems(items);
    }

    method Retain(key: Scope, edit: Edit)
      modifies `retained, `stored, `published
      ensures Now() == EditQueue.Retain(old(Now()), key, edit)
    {
      var rest := Without(if key in retained then retained[key] else [], edit.id);
      Publish(key, rest + [edit]);
    }

    method Withdraw(key: Scope, id: Id)
      modifies `retained, `stored, `published
      ensures Now() == EditQueue.Withdraw(old(Now()), key, id)
    {
      var rest := Without(if key in retained then retained[key] else [], id);
      Publish(key, rest);
    }

    // ----- The scope ------------------------------------------------------------

    method RetireMetadataRequests()
      requires WaitersListed(runs, waiting, None)
      modifies `runs, `shown
      ensures Now() == Retired(old(Now()))
    {
      runs := AnswerAll(runs, waiting);
      shown := None;
    }

    /** `setApiBaseUrl`: no run begun before it will write or send again, no question stays
        open, and every draft stays where it is. */
    method SetApiBaseUrl(key: string)
      requires Valid()
      modifies this
      ensures Took(Around(ConnectionAdvanced(old(scope).(server := key)))) && scope == old(scope).(server := key)
      ensures forall r :: r in old(usedRuns) ==> Superseded(Now(), r)
      ensures forall r :: r in runs ==> !runs[r].phase.Asking?
      ensures SameLists(old(Now()), Now()) && requests == old(requests) && server == old(server) && shown == None
    {
      ghost var before, e := Here(), Around(ConnectionAdvanced(scope.(server := key)));
      HistoryPromises(states, events);
      RetireMetadataRequests();
      connection, scope := connection + 1, scope.(server := key);
      AdvanceSupersedes(before, e);
      MakeStep(before, e, Here());
      Note(before, e);
    }

    /** `setActiveLibraryId`: the same, unless the library is the active one. */
    method SetActiveLibraryId(id: string)
      requires Valid()
      modifies this
      ensures id == old(scope).library ==> Valid() && Here() == old(Here()) && events == old(events)
      ensures id != old(scope).library ==> Took(Around(LibraryAdvanced(old(scope).(library := id))))
      ensures id != old(scope).library ==> forall r :: r in old(usedRuns) ==> Superseded(Now(), r)
      ensures id != old(scope).library ==> shown == None && forall r :: r in runs ==> !runs[r].phase.Asking?
      ensures scope == old(scope).(library := id) && SameLists(old(Now()), Now()) && requests == old(requests) &&
              server == old(server)
    {
      if scope.library != id {
        ghost var before, e := Here(), Around(LibraryAdvanced(scope.(library := id)));
        HistoryPromises(states, events);
        RetireMetadataRequests();
        library, scope := library + 1, scope.(library := id);
        AdvanceSupersedes(before, e);
        MakeStep(before, e, Here());
        Note(before, e);
      }
    }

    // ----- Runs -----------------------------------------------------------------

    method Suspend(r: RunId, phase: Phase)
      requires r in runs
      modifies `runs
      ensures Now() == InPhase(old(Now()), r, phase)
    {
      runs := runs[r := runs[r].(phase := phase)];
    }

    method Revise(r: RunId, edit: Edit)
      requires r in runs
      modifies `runs
      ensures Now() == WithEdit(old(Now()), r, edit)
    {
      runs := runs[r := runs[r].(edit := edit)];
    }

    /** The loop body up to its first await. */
    method AttemptOnce(r: RunId)
      requires r in runs
      modifies `retained, `stored, `published, `runs, `requests
      ensures Now() == Attempt(old(Now()), r)
    {
      var key, edit := runs[r].key, runs[r].edit;
      Retain(key, edit);
      if blocked {
        edit := edit.(message := BLOCKED);
        Revise(r, edit);
        Retain(key, edit);
        Suspend(r, Ended);
      } else if edit.content.basis.None? || !ValidBasis(edit.content.basis.value) {
        Suspend(r, Recovering);
      } else {
        requests := requests + [Request(r, edit.id, edit.operation, edit.content)];
        Suspend(r, AwaitingResponse);
      }
    }

    method ExecuteEdit(r: RunId, edit: Edit)
      modifies `retained, `stored, `published, `runs, `requests, `inFlight, `usedRuns
      ensures Now() == Execute(old(Now()), r, edit)
    {
      if edit.id in inFlight {
        return;
      }
      Start(r, edit);
      AttemptOnce(r);
    }

    method Start(r: RunId, edit: Edit)
      modifies `runs, `inFlight, `usedRuns
      ensures Now() == Started(old(Now()), r, edit)
    {
      runs := runs[r := Run(edit, scope, connection, library, Recovering)];
      inFlight := inFlight[edit.id := r];
      usedRuns := usedRuns + {r};
    }

    method SendOrJoin(r: RunId, id: Id, operation: Id, content: Content)
      modifies `retained, `stored, `published, `runs, `requests, `inFlight, `usedRuns, `issued
      ensures Now() == Sent(old(Now()), r, id, operation, content)
    {
      var list := ReadList();
      var pending := FindPending(list, content);
      if pending.Some? {
        ExecuteEdit(r, pending.value);
      } else {
        ExecuteNew(r, id, operation, content);
      }
    }

    method ExecuteNew(r: RunId, id: Id, operation: Id, content: Content)
      modifies `retained, `stored, `published, `runs, `requests, `inFlight, `usedRuns, `issued
      ensures Now() == Execute(old(Now()).(issued := old(issued)[operation := Identity(id, content)]), r,
                               Edit(id, content, operation, "", None, None))
    {
      issued := issued[operation := Identity(id, content)];
      ExecuteEdit(r, Edit(id, content, operation, "", None, None));
    }

    method SendStep(r: RunId, id: Id, operation: Id, content: Content)
      requires Enabled(Here(), Send(r, id, operation, content))
      modifies `retained, `stored, `published, `runs, `requests, `inFlight, `usedRuns, `issued
      ensures Made(old(Here()), Send(r, id, operation, content), Here())
    {
      ghost var before := Here();
      SendOrJoin(r, id, operation, content);
      SendMade(before, r, id, operation, content, Here());
    }

    /** `sendMetadata`: what is asked for ends up in the list; nothing leaves a list; a request
        goes out only if the list, and storage when it works, hold it; and one that the list
        held already goes out as it was, under its own identity. */
    method SendMetadata(r: RunId, id: Id, operation: Id, content: Content)
      requires Valid() && Enabled(Here(), Send(r, id, operation, content))
      modifies this
      ensures Took(Send(r, id, operation, content)) && server == old(server) && scope == old(scope)
      ensures AsksFor(ListOf(Now(), scope), content) && LosesNothing(old(Now()), Now())
      ensures SendsWritten(old(Now()), Now(), r) && Resends(old(Now()), Now(), r, id, operation, content)
    {
      ghost var before := Here();
      HistoryPromises(states, events);
      SendStep(r, id, operation, content);
      SendMeans(before, r, id, operation, content, Here());
      Note(before, Send(r, id, operation, content));
    }

    /** The owner acknowledges: new identities for a new basis or a new revision. */
    method Acknowledge(edit: Edit, first: Id, second: Id) returns (reviewed: Edit)
      modifies `issued, `renewals
      ensures Now() == ReviewedState(old(Now()), edit, first, second)
      ensures reviewed == ReviewedEdit(edit, first, second)
    {
      reviewed := edit;
      if reviewed.recovery.Some? {
        reviewed := WithRecovery(reviewed, first);
        NoteRenewal(reviewed);
      }
      if reviewed.conflict.Some? && reviewed.conflict.value.reviewable {
        reviewed := WithReview(reviewed, second);
        NoteRenewal(reviewed);
      }
    }

    ghost method NoteRenewal(edit: Edit)
      modifies `issued, `renewals
      ensures Now() == Renew(old(Now()), edit)
    {
      issued := issued[edit.operation := Identity(edit.id, edit.content)];
      renewals := renewals[edit.id := (if edit.id in renewals then renewals[edit.id] else 0) + 1];
    }

    /** `resume(choice)`: only the first answer to a question counts. */
    method Resume(id: Id, choice: Choice)
      requires id in waiting
      modifies `runs
      ensures Now() == if InRun(old(Now()), waiting[id], Asking) then InPhase(old(Now()), waiting[id], Chosen(choice))
              else old(Now())
    {
      var r := waiting[id];
      if r in runs && runs[r].phase.Asking? {
        Suspend(r, Chosen(choice));
      }
    }

    method ResumeOrChoose(edit: Edit, choice: Choice, r: RunId, first: Id, second: Id)
      modifies `retained, `stored, `published, `runs, `requests, `inFlight, `usedRuns, `issued, `renewals, `shown
      ensures Now() == ChoiceMade(old(Now()), edit, choice, r, first, second)
    {
      if edit.id in waiting {
        Resume(edit.id, choice);
      } else if choice.Keep? || choice.Discard? {
        var list := ReadList();
        shown := None;
        if choice.Discard? {
          Withdraw(scope, edit.id);
        } else {
          Publish(scope, list);
        }
      } else if choice.Reviewed? {
        var reviewed := Acknowledge(edit, first, second);
        ExecuteEdit(r, reviewed);
      } else {
        ExecuteEdit(r, edit);
      }
    }

    method ChoiceStep(edit: Edit, choice: Choice, r: RunId, first: Id, second: Id)
      requires Enabled(Here(), Choose(edit, choice, r, first, second))
      modifies `retained, `stored, `published, `runs, `requests, `inFlight, `usedRuns, `issued, `renewals, `shown
      ensures Made(old(Here()), Choose(edit, choice, r, first, second), Here())
    {
      ghost var before := Here();
      ResumeOrChoose(edit, choice, r, first, second);
      ChoiceStepMade(before, edit, choice, r, first, second, Here());
    }

    /** `chooseEdit`: an edit leaves a list only by being discarded, or when a run starts in a
        scope whose list has not been read; and what goes out is written first. */
    method ChooseEdit(edit: Edit, choice: Choice, r: RunId, first: Id, second: Id)
      requires Valid() && Enabled(Here(), Choose(edit, choice, r, first, second))
      modifies this
      ensures Took(Choose(edit, choice, r, first, second)) && server == old(server)
      ensures ChoiceDone(old(Now()), Now(), edit, choice, r, first, second)
    {
      ghost var before := Here();
      HistoryPromises(states, events);
      ChoiceStep(edit, choice, r, first, second);
      ChoiceMeans(before, edit, choice, r, first, second, Here());
      Note(before, Choose(edit, choice, r, first, second));
    }

    /** The attempt failed: record why, show it, and ask if anyone is listening. */
    method RecordFailure(r: RunId, message: string, conflict: Option<Conflict>, recovery: Option<Basis>)
      requires r in runs
      modifies `retained, `stored, `published, `runs, `shown, `waiting
      ensures Now() == Failed(old(Now()), r, message, conflict, recovery)
    {
      var edit := runs[r].edit.(message := message, conflict := conflict, recovery := recovery);
      shown := Some(edit.id);
      Revise(r, edit);
      Retain(runs[r].key, edit);
      if listening {
        waiting := waiting[edit.id := r];
        Suspend(r, Asking);
      } else {
        Suspend(r, Ended);
      }
    }

    method AcceptResponse(r: RunId)
      requires r in runs
      modifies `retained, `stored, `published, `runs, `shown
      ensures Now() == Accepted(old(Now()), r)
    {
      var id := runs[r].edit.id;
      if shown == Some(id) {
        shown := None;
      }
      Withdraw(runs[r].key, id);
      Suspend(r, Ended);
    }

    method GoOn(r: RunId, answer: Answer)
      requires r in runs
      modifies `retained, `stored, `published, `runs, `shown, `waiting
      ensures Now() == Guarded(old(Now()), r, AfterAnswer(old(Now()), r, answer))
    {
      if runs[r].connection != connection || runs[r].library != library {
        Suspend(r, Ended);
        return;
      }
      match answer
      case BasisFetched(basis) => RecordFailure(r, if basis.Some? then REVIEW_FIRST else NO_OPENING, None, basis);
      case Responded(ok) => Suspend(r, if ok then ReadingOk else ReadingError);
      case Lost => RecordFailure(r, UNCONFIRMED, None, None);
      case OkBody(readable) =>
        if readable {
          AcceptResponse(r);
        } else {
          RecordFailure(r, UNCONFIRMED, None, None);
        }
      case ErrorBody(message, conflict) => RecordFailure(r, message, conflict, None);
    }

    method AnswerStep(r: RunId, answer: Answer)
      requires Enabled(Here(), Answered(r, answer))
      modifies `retained, `stored, `published, `runs, `shown, `waiting
      ensures Made(old(Here()), Answered(r, answer), Here())
    {
      ghost var before := Here();
      AnsweredIsNotWaiting(before.queue, before.server, r, answer);
      GoOn(r, answer);
      AnswerMade(before, r, answer, Here());
    }

    /** A suspended run goes on with the network's answer, after `assertScope()`. If its scope
        is gone it touches nothing but itself; if it was accepted, its edit leaves the list,
        and the server has applied exactly that edit's request; if it failed, the edit is
        listed and shown with what went wrong, and its owner asked; nothing is sent. */
    method ReceiveAnswer(r: RunId, answer: Answer)
      requires Valid() && Enabled(Here(), Answered(r, answer))
      modifies this
      ensures Took(Answered(r, answer)) && server == old(server) && Now().requests == old(Now()).requests
      ensures LosesOnly(old(Now()), Now(), Answered(r, answer))
      ensures old(Superseded(Now(), r)) ==> Now() == old(Now()).(runs := Now().runs)
      ensures old(Fenced(Now(), r)) ==> AnswerShown(old(Now()), Now(), r, answer)
      ensures old(Fenced(Now(), r)) && answer == OkBody(true) ==> AppliedFor(server, old(runs[r].edit))
    {
      ghost var before := Here();
      HistoryPromises(states, events);
      AnswerStep(r, answer);
      AnswerMeans(before, r, answer, Here());
      if answer == OkBody(true) {
        AcceptedIsApplied(states, events, before, r, Here());
      }
      Note(before, Answered(r, answer));
    }

    /** The owner closed the question, keeping or discarding the edit. */
    method Dismiss(r: RunId, discard: bool)
      requires r in runs
      modifies `retained, `stored, `published, `runs, `shown
      ensures Now() == AfterChoice(old(Now()), r, if discard then Discard else Keep, old(runs[r].edit.id),
                                   old(runs[r].edit.id))
    {
      var key, id := runs[r].key, runs[r].edit.id;
      shown := None;
      if discard {
        Withdraw(key, id);
      } else {
        Publish(key, if key in retained then retained[key] else []);
      }
      Suspend(r, Ended);
    }

    method ReviewAndAttempt(r: RunId, first: Id, second: Id)
      requires r in runs
      modifies `retained, `stored, `published, `runs, `requests, `issued, `renewals
      ensures Now() == AfterChoice(old(Now()), r, Reviewed, first, second)
    {
      var reviewed := Acknowledge(runs[r].edit, first, second);
      Revise(r, reviewed);
      AttemptOnce(r);
    }

    method GoOnChosen(r: RunId, first: Id, second: Id)
      requires r in runs && runs[r].phase.Chosen?
      modifies `retained, `stored, `published, `runs, `requests, `issued, `renewals, `shown, `waiting
      ensures Now() == Continued(old(Now()), r, first, second)
    {
      var choice := runs[r].phase.choice;
      waiting := waiting - {runs[r].edit.id};
      if runs[r].connection != connection || runs[r].library != library {
        Suspend(r, Ended);
        return;
      }
      match choice
      case Keep => Dismiss(r, false);
      case Discard => Dismiss(r, true);
      case Reviewed => ReviewAndAttempt(r, first, second);
      case Retry => AttemptOnce(r);
    }

    method ChosenStep(r: RunId, first: Id, second: Id)
      requires Enabled(Here(), Resumed(r, first, second))
      modifies `retained, `stored, `published, `runs, `requests, `issued, `renewals, `shown, `waiting
      ensures Made(old(Here()), Resumed(r, first, second), Here())
    {
      ghost var before := Here();
      GoOnChosen(r, first, second);
      ContinuedMade(before, r, first, second, Here());
    }

    /** A suspended run goes on with its owner's choice. If its scope is gone it only stops
        waiting; otherwise its edit leaves the list exactly if it was discarded, a retry sends
        the same request again, a review sends the acknowledged one under a new identity, and
        what goes out is written first. */
    method TakeChoice(r: RunId, first: Id, second: Id)
      requires Valid() && Enabled(Here(), Resumed(r, first, second))
      modifies this
      ensures Took(Resumed(r, first, second)) && server == old(server)
      ensures LosesOnly(old(Now()), Now(), Resumed(r, first, second))
      ensures SendsWritten(old(Now()), Now(), r)
      ensures old(Superseded(Now(), r)) ==> Now() == old(Now()).(runs := Now().runs, waiting := Now().waiting)
      ensures old(Fenced(Now(), r)) ==>
                ChoiceAnswers(old(Now()), Now(), r, old(runs[r].edit), old(runs[r].phase.choice), first, second)
    {
      ghost var before := Here();
      HistoryPromises(states, events);
      ChosenStep(r, first, second);
      ContinuedMeans(before, r, first, second, Here());
      Note(before, Resumed(r, first, second));
    }

    // ----- What happens around the page -----------------------------------------

    /** `finally`: an ended run is forgotten, and its edit can be executed again. */
    method Reap(r: RunId)
      requires Valid() && InRun(Now(), r, Ended)
      modifies this
      ensures Took(Around(Reaped(r))) && SameLists(old(Now()), Now()) && server == old(server)
      ensures NoRunOf(runs, old(runs[r].edit.id))
    {
      ghost var before := Here();
      HistoryPromises(states, events);
      Forget(r);
      ReapMeans(before, r, Here());
      Note(before, Around(Reaped(r)));
    }

    method Forget(r: RunId)
      requires r in runs
      modifies `runs, `inFlight
      ensures Now() == EditQueue.Reap(old(Now()), r)
    {
      var id := runs[r].edit.id;
      runs, inFlight := runs - {r}, inFlight - {id};
    }

    /** The module state as its initialisers leave it. */
    method Restart(next: Scope)
      modifies `retained, `waiting, `inFlight, `runs, `shown, `published, `connection, `library, `scope
      ensures Now() == PageReload(old(Now()), next)
    {
      ForgetRuns();
      retained, published, shown := map[], {}, None;
      connection, library, scope := 0, 0, next;
    }

    method ForgetRuns()
      modifies `waiting, `inFlight, `runs
      ensures Now() == old(Now()).(waiting := map[], inFlight := map[], runs := map[])
    {
      waiting, inFlight, runs := map[], map[], map[];
    }

    /** A new page over the same storage. */
    method Reload(next: Scope)
      requires Valid()
      modifies this
      ensures Took(Around(Reloaded(next))) && server == old(server) && stored == old(stored)
      ensures ReadsBack(old(Now()), Now())
    {
      ghost var before := Here();
      Restart(next);
      ReloadMeans(before, next, Here());
      Note(before, Around(Reloaded(next)));
    }

    /** Listeners come and go, storage fails and recovers, the server turns out too old. */
    method Surround(listening: bool, blocked: bool, storageWorks: bool)
      requires Valid()
      modifies this
      ensures Took(Around(Surroundings(listening, blocked, storageWorks))) && SameLists(old(Now()), Now()) &&
              server == old(server)
    {
      ghost var before := Here();
      this.listening, this.blocked, this.storageWorks := listening, blocked, storageWorks;
      SurroundMeans(before, listening, blocked, storageWorks, Here());
      Note(before, Around(Surroundings(listening, blocked, storageWorks)));
    }

    /** The server handles a request that was sent, now or long ago. */
    ghost method ServerHandles(i: nat, accepts: bool)
      requires Valid() && i < |requests|
      modifies this
      ensures Took(Delivered(i, accepts)) && Now() == old(Now())
      ensures requests[i].operation in old(server.recorded) ==> server == old(server)
    {
      var before := Here();
      server := ServerTurn(server, requests[i], accepts);
      MakeStep(before, Delivered(i, accepts), Here());
      Note(before, Delivered(i, accepts));
    }
  }

  /** A page that is used only through its methods keeps what every history keeps: no list
      names an edit twice, no edit runs twice at once, one operation identity never carries
      two requests, and an edit is applied at most once more than its owner reviewed it. */
  lemma PageKeepsPromises(page: MetadataEdits, id: Id)
    requires page.Valid()
    ensures Unique(page.Now())
    ensures forall a, b :: a in page.runs && b in page.runs && page.runs[a].edit.id == page.runs[b].edit.id ==> a == b
    ensures forall a, b :: a in page.requests && b in page.requests && a.operation == b.operation ==>
            a.edit == b.edit && a.content == b.content
    ensures TimesApplied(page.server.applied, id) <= 1 + Reviews(page.states, page.events, id, |page.events|)
  {
    var states, events, i := page.states, page.events, |page.events|;
    IdsStayUnique(states, events, i);
    HistoryPromises(states, events);
    forall a, b | a in page.requests && b in page.requests && a.operation == b.operation
      ensures a.edit == b.edit && a.content == b.content
    {
      SameOperationSameRequest(states, events, i, a, b);
    }
    AppliedOncePlusReviews(states, events, id, i);
  }
}
