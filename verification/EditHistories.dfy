/** Histories that show where the promises end: a request the server cannot recognise, an edit
    a reload forgets, a list that is overwritten unread. */
module EditHistories {
  import opened Core
  import opened EditBasis
  import opened EditQueue
  import opened EditLists
  import opened EditPromises
  import opened EditReviews

  /** A page with nobody listening, nothing waiting, working storage and counters at zero. */
  function Page(scope: Scope, retained: map<Scope, seq<Edit>>, runs: map<RunId, Run>, inFlight: map<Id, RunId>,
                shown: Option<Id>,
                stored: map<Scope, seq<Edit>>, requests: seq<Request>, issued: map<Id, Identity>,
                    renewals: map<Id, nat>,
                published: set<Edit>, used: set<RunId>): Queue
  {
    Queue(retained, map[], inFlight, runs, shown, 0, 0, scope, false, false, true, stored, requests, issued, renewals,
          published, used)
  }

  function FreshEditOf(id: Id, op: Id, content: Content): Edit
  {
    Edit(id, content, op, "", None, None)
  }

  predicate Sendable(content: Content)
  {
    content.basis.Some? && ValidBasis(content.basis.value) && content.reviewed == map[]
  }

  lemma {:induction false} OneEdit(edit: Edit, scope: Scope)
    ensures Dropped([edit], edit.id) == [] && Dropped([], edit.id) == [] && Elems([edit]) == {edit}
    ensures RecoveredList([], scope) == []
    ensures RecoveredList([edit], scope) == if ValidPending(edit, scope) then [Recovered(edit)] else []
  {
    assert Init([edit]) == [] && Last([edit]) == edit;
  }

  // ----- The common steps -----------------------------------------------------

  /** After the first send of a page whose scope has nothing stored. */
  function Sent1(scope: Scope, stored: map<Scope, seq<Edit>>, before: seq<Request>, issued: map<Id, Identity>,
                 used: set<RunId>,
                 r: RunId, id: Id, op: Id, content: Content): Queue
  {
    var edit := FreshEditOf(id, op, content);
    Page(scope, map[scope := [edit]], map[r := Run(edit, scope, 0, 0, AwaitingResponse)], map[id := r], None,
         stored[scope := [edit]], before + [Request(r, id, op, content)], issued[op := Identity(id, content)], map[],
             {edit}, used + {r})
  }

  /** A page that has just started. */
  function Started0(scope: Scope, stored: map<Scope, seq<Edit>>, before: seq<Request>, issued: map<Id, Identity>,
                    renewals: map<Id, nat>,
                    used: set<RunId>): Queue
  {
    Page(scope, map[], map[], map[], None, stored, before, issued, renewals, {}, used)
  }

  /** The page's only run, once its request is out. */
  function Sending(s: Queue, r: RunId, edit: Edit, phase: Phase): Queue
  {
    s.(runs := map[r := Run(edit, s.scope, s.connection, s.library, phase)], inFlight := map[edit.id := r],
       usedRuns := s.usedRuns + {r})
  }

  lemma StartedAlone(s: Queue, r: RunId, edit: Edit)
    requires s.runs == map[] && s.inFlight == map[]
    ensures Started(s, r, edit) == Sending(s, r, edit, Recovering)
  {
    var run := Run(edit, s.scope, s.connection, s.library, Recovering);
    assert s.runs[r := run] == map[r := run];
    assert s.inFlight[edit.id := r] == map[edit.id := r];
  }

  lemma TransmitAlone(s: Queue, r: RunId, run: Run)
    requires s.runs == map[r := run]
    ensures Transmit(s, r) == s.(runs := map[r := run.(phase := AwaitingResponse)],
                                 requests := s.requests + [Request(r, run.edit.id, run.edit.operation,
                                                                   run.edit.content)])
  {
    assert s.runs[r := run.(phase := AwaitingResponse)] == map[r := run.(phase := AwaitingResponse)];
  }

  /** What a page with no run does with an edit that is alone in its list, or not listed. */
  lemma ExecuteAlone(s: Queue, r: RunId, edit: Edit)
    requires s.runs == map[] && s.inFlight == map[] && Dropped(ListOf(s, s.scope), edit.id) == []
    requires !s.blocked && s.storageWorks && edit.content.basis.Some? && ValidBasis(edit.content.basis.value)
    ensures Execute(s, r, edit) ==
            Sending(s, r, edit, AwaitingResponse).
              (retained := s.retained[s.scope := [edit]], stored := s.stored[s.scope := [edit]],
               published := s.published + {edit},
               requests := s.requests + [Request(r, edit.id, edit.operation, edit.content)])
  {
    OneEdit(edit, s.scope);
    StartedAlone(s, r, edit);
    var started := Sending(s, r, edit, Recovering);
    assert [] + [edit] == [edit];
    var kept := Retain(started, s.scope, edit);
    assert kept == started.(retained := s.retained[s.scope := [edit]], stored := s.stored[s.scope := [edit]],
                            published := s.published + {edit});
    TransmitAlone(kept, r, Run(edit, s.scope, s.connection, s.library, Recovering));
  }

  lemma FirstSend(scope: Scope, stored: map<Scope, seq<Edit>>, before: seq<Request>, issued: map<Id, Identity>,
                  used: set<RunId>,
                  r: RunId, id: Id, op: Id, content: Content)
    requires scope !in stored && Sendable(content)
    ensures Sent(Started0(scope, stored, before, issued, map[], used), r, id, op, content) ==
            Sent1(scope, stored, before, issued, used, r, id, op, content)
  {
    var s, edit := Started0(scope, stored, before, issued, map[], used), FreshEditOf(id, op, content);
    FirstLoad(s);
    assert s.retained[scope := []] == map[scope := []] && map[scope := []][scope := [edit]] == map[scope := [edit]];
    ExecuteAlone(s.(retained := map[scope := []], issued := issued[op := Identity(id, content)]), r, edit);
  }

  /** Reading a scope with nothing stored. */
  lemma FirstLoad(s: Queue)
    requires s.scope !in s.retained && s.scope !in s.stored
    ensures Loaded(s) == s.(retained := s.retained[s.scope := []])
  {
    assert RecoveredList([], s.scope) == [] && s.published + Elems([]) == s.published;
  }

  lemma Reload(s: Queue, scope: Scope)
    requires s.storageWorks && !s.listening && !s.blocked
    ensures PageReload(s, scope) == Started0(scope, s.stored, s.requests, s.issued, s.renewals, s.usedRuns)
  {
  }

  function AfterFailure(s: Queue, r: RunId, failed: Edit, scope: Scope): Queue
  {
    s.(runs := map[r := Run(failed, scope, 0, 0, Ended)], retained := map[scope := [failed]],
       stored := s.stored[scope := [failed]],
       shown := Some(failed.id), published := s.published + {failed})
  }

  /** Changing the only run. */
  lemma OnlyRun(s: Queue, r: RunId, run: Run, edit: Edit, phase: Phase)
    requires s.runs == map[r := run]
    ensures WithEdit(s, r, edit) == s.(runs := map[r := run.(edit := edit)])
    ensures InPhase(s, r, phase) == s.(runs := map[r := run.(phase := phase)])
  {
    assert s.runs[r := run.(edit := edit)] == map[r := run.(edit := edit)];
    assert s.runs[r := run.(phase := phase)] == map[r := run.(phase := phase)];
  }

  /** The run gives up on its answer with nobody listening. */
  lemma Fail(s: Queue, r: RunId, edit: Edit, scope: Scope, phase: Phase, message: string, conflict: Option<Conflict>)
    requires s.runs == map[r := Run(edit, scope, 0, 0, phase)] && s.retained == map[scope := [edit]] && !s.listening &&
             s.storageWorks
    ensures Failed(s, r, message, conflict, None) ==
            AfterFailure(s, r, edit.(message := message, conflict := conflict, recovery := None), scope)
  {
    var failed := edit.(message := message, conflict := conflict, recovery := None);
    OnlyRun(s.(shown := Some(edit.id)), r, Run(edit, scope, 0, 0, phase), failed, Ended);
    var m := s.(shown := Some(edit.id), runs := map[r := Run(failed, scope, 0, 0, phase)]);
    RetainOnly(m, scope, edit, failed);
    OnlyRun(Retain(m, scope, failed), r, Run(failed, scope, 0, 0, phase), failed, Ended);
  }

  lemma RetainOnly(s: Queue, scope: Scope, edit: Edit, next: Edit)
    requires s.retained == map[scope := [edit]] && s.storageWorks && next.id == edit.id
    ensures Retain(s, scope, next) ==
            s.(retained := map[scope := [next]], stored := s.stored[scope := [next]], published := s.published + {next})
  {
    OneEdit(edit, scope);
    OneEdit(next, scope);
    assert ListOf(s, scope) == [edit];
    assert Dropped([edit], edit.id) + [next] == [next];
    assert s.retained[scope := [next]] == map[scope := [next]];
  }

  /** And is reaped. */
  lemma Finish(s: Queue, r: RunId, run: Run)
    requires s.runs == map[r := run] && s.inFlight == map[run.edit.id := r]
    ensures Reap(s, r) == s.(runs := map[], inFlight := map[])
  {
    assert s.runs - {r} == map[];
    assert s.inFlight - {run.edit.id} == map[];
  }

  ghost predicate Ends(states: seq<State>, events: seq<Event>, scope: Scope, last: State)
  {
    History(states, events) && states[0] == Initial(scope) && Last(states) == last
  }

  lemma Begin(scope: Scope) returns (states: seq<State>, events: seq<Event>)
    ensures states == [State(Started0(scope, map[], [], map[], map[], {}), Server(map[], []))] && events == []
    ensures Ends(states, events, scope, State(Started0(scope, map[], [], map[], map[], {}), Server(map[], [])))
  {
    states, events := [Initial(scope)], [];
  }

  /** The longer history is the shorter one and this step. */
  ghost predicate OneMore(states: seq<State>, events: seq<Event>, e: Event, n: State, scope: Scope, longer: seq<State>,
                          more: seq<Event>)
  {
    Ends(longer, more, scope, n) && more == events + [e] && longer == states + [n]
  }

  lemma Next(states: seq<State>, events: seq<Event>, scope: Scope, s: State, e: Event, n: State)
    returns (longer: seq<State>, more: seq<Event>)
    requires Ends(states, events, scope, s) && Enabled(s, e) && n == After(s, e)
    ensures OneMore(states, events, e, n, scope, longer, more)
  {
    Append(states, events, e, n);
    longer, more := states + [n], events + [e];
  }

  // ----- An edit a reload forgets ---------------------------------------------

  lemma ThenFirstSend(states: seq<State>, events: seq<Event>, start: Scope,
                      scope: Scope, stored: map<Scope, seq<Edit>>, before: seq<Request>, issued: map<Id, Identity>,
                      used: set<RunId>, server: Server, r: RunId, id: Id, op: Id, content: Content)
    returns (longer: seq<State>, more: seq<Event>)
    requires Ends(states, events, start, State(Started0(scope, stored, before, issued, map[], used), server))
    requires scope !in stored && Sendable(content) && r !in used && op !in issued &&
             (forall o :: o in issued ==> issued[o].edit != id)
    ensures OneMore(states, events, Send(r, id, op, content),
                    State(Sent1(scope, stored, before, issued, used, r, id, op, content), server), start, longer, more)
  {
    FirstSend(scope, stored, before, issued, used, r, id, op, content);
    var n := State(Sent1(scope, stored, before, issued, used, r, id, op, content), server);
    var s := Started0(scope, stored, before, issued, map[], used);
    longer, more := Next(states, events, start, State(s, server), Send(r, id, op, content), n);
  }

  lemma ThenReload(states: seq<State>, events: seq<Event>, start: Scope,
                   s: Queue, server: Server, scope: Scope)
    returns (longer: seq<State>, more: seq<Event>)
    requires Ends(states, events, start, State(s, server))
    requires s.storageWorks && !s.listening && !s.blocked
    ensures OneMore(states, events, Around(Reloaded(scope)),
                    State(Started0(scope, s.stored, s.requests, s.issued, s.renewals, s.usedRuns), server), start,
                        longer, more)
  {
    Reload(s, scope);
    var n := State(Started0(scope, s.stored, s.requests, s.issued, s.renewals, s.usedRuns), server);
    longer, more := Next(states, events, start, State(s, server), Around(Reloaded(scope)), n);
  }

  lemma ThenList(states: seq<State>, events: seq<Event>, start: Scope,
                 s: Queue, server: Server, edit: Edit)
    returns (longer: seq<State>, more: seq<Event>)
    requires Ends(states, events, start, State(s, server))
    requires s.scope !in s.retained && s.scope in s.stored && s.stored[s.scope] == [edit]
    ensures var list := if ValidPending(edit, s.scope) then [Recovered(edit)] else [];
            OneMore(states, events, ListRead,
                    State(s.(retained := s.retained[s.scope := list], published := s.published + Elems(list)), server),
                        start, longer, more)
  {
    var list := if ValidPending(edit, s.scope) then [Recovered(edit)] else [];
    OneEdit(edit, s.scope);
    var n := State(s.(retained := s.retained[s.scope := list], published := s.published + Elems(list)), server);
    longer, more := Next(states, events, start, State(s, server), ListRead, n);
  }

  /** A send whose address does not pass the check is retained and stored, and gone from the
      list when the page has reloaded. */
  lemma InvalidSendIsForgotten(scope: Scope, id: Id, op: Id, content: Content)
    returns (states: seq<State>, events: seq<Event>)
    requires Sendable(content) && !ValidPending(FreshEditOf(id, op, content), scope)
    ensures |states| == 4 && Ends(states, events, scope, states[3])
    ensures events == [Send(0, id, op, content), Around(Reloaded(scope)), ListRead]
    ensures Visible(states[1].queue, scope) == Stored(states[1].queue, scope) == [FreshEditOf(id, op, content)]
    ensures Visible(states[3].queue, scope) == []
  {
    var server := Server(map[], []);
    states, events := Begin(scope);
    var q1 := Sent1(scope, map[], [], map[], {}, 0, id, op, content);
    states, events := ThenFirstSend(states, events, scope, scope, map[], [], map[], {}, server, 0, id, op, content);
    var q2 := Started0(scope, q1.stored, q1.requests, q1.issued, q1.renewals, q1.usedRuns);
    states, events := ThenReload(states, events, scope, q1, server, scope);
    states, events := ThenList(states, events, scope, q2, server, FreshEditOf(id, op, content));
  }

  /** The client's own address for deleting a collection. */
  function DeleteAddress(library: string, collection: string, cascade: bool): string
  {
    "/api/v1/libraries/" + library + "/collections/" + collection + (if cascade then "?cascade=true"
                                                                     else "?cascade=false")
  }

  /** So deleting a collection, whose address carries a query, is an edit a reload forgets. */
  lemma DeletingACollectionIsForgotten(scope: Scope, id: Id, op: Id, collection: string, cascade: bool, basis: Basis)
    returns (states: seq<State>, events: seq<Event>)
    requires ValidBasis(basis)
    ensures |states| == 4 && Ends(states, events, scope, states[3])
    ensures var content := Content(DeleteAddress(scope.library, collection, cascade), "DELETE", None, Some(basis),
                                   map[]);
            && events == [Send(0, id, op, content), Around(Reloaded(scope)), ListRead]
            && Visible(states[1].queue, scope) == [FreshEditOf(id, op, content)]
    ensures Visible(states[3].queue, scope) == []
  {
    var url := DeleteAddress(scope.library, collection, cascade);
    var front := "/api/v1/libraries/" + scope.library + "/collections/" + collection;
    assert url[|front|] == '?';
    assert ForbiddenChar(url[|front|]);
    states, events := InvalidSendIsForgotten(scope, id, op, Content(url, "DELETE", None, Some(basis), map[]));
  }

  // ----- Steps of a page with one run or none ---------------------------------

  lemma ThenRejected(states: seq<State>, events: seq<Event>, start: Scope,
                     s: Queue, server: Server, r: RunId, run: Run)
    returns (longer: seq<State>, more: seq<Event>)
    requires Ends(states, events, start, State(s, server))
    requires s.runs == map[r := run] && run.phase.AwaitingResponse? && run.connection == s.connection &&
             run.library == s.library
    ensures OneMore(states, events, Answered(r, Responded(false)),
                    State(s.(runs := map[r := run.(phase := ReadingError)]), server), start, longer, more)
  {
    assert InPhase(s, r, ReadingError) == s.(runs := map[r := run.(phase := ReadingError)]);
    var n := State(s.(runs := map[r := run.(phase := ReadingError)]), server);
    longer, more := Next(states, events, start, State(s, server), Answered(r, Responded(false)), n);
  }

  lemma ThenConflict(states: seq<State>, events: seq<Event>, start: Scope,
                     s: Queue, server: Server, r: RunId, edit: Edit, scope: Scope, conflict: Conflict)
    returns (longer: seq<State>, more: seq<Event>)
    requires Ends(states, events, start, State(s, server))
    requires s.runs == map[r := Run(edit, scope, 0, 0, ReadingError)] && s.retained == map[scope := [edit]]
    requires !s.listening && s.storageWorks && s.connection == s.library == 0
    ensures OneMore(states, events, Answered(r, ErrorBody("", Some(conflict))),
                    State(AfterFailure(s, r, edit.(message := "", conflict := Some(conflict), recovery := None),
                                       scope), server),
                    start, longer, more)
  {
    Fail(s, r, edit, scope, ReadingError, "", Some(conflict));
    var n := State(AfterFailure(s, r, edit.(message := "", conflict := Some(conflict), recovery := None), scope),
                   server);
    longer, more := Next(states, events, start, State(s, server), Answered(r, ErrorBody("", Some(conflict))), n);
  }

  lemma ThenLose(states: seq<State>, events: seq<Event>, start: Scope,
                 s: Queue, server: Server, r: RunId, edit: Edit, scope: Scope)
    returns (longer: seq<State>, more: seq<Event>)
    requires Ends(states, events, start, State(s, server))
    requires s.runs == map[r := Run(edit, scope, 0, 0, AwaitingResponse)] && s.retained == map[scope := [edit]]
    requires !s.listening && s.storageWorks && s.connection == s.library == 0
    ensures OneMore(states, events, Answered(r, Lost),
                    State(AfterFailure(s, r, edit.(message := UNCONFIRMED, conflict := None, recovery := None), scope),
                          server),
                    start, longer, more)
  {
    Fail(s, r, edit, scope, AwaitingResponse, UNCONFIRMED, None);
    var n := State(AfterFailure(s, r, edit.(message := UNCONFIRMED, conflict := None, recovery := None), scope),
                   server);
    longer, more := Next(states, events, start, State(s, server), Answered(r, Lost), n);
  }

  lemma ThenReap(states: seq<State>, events: seq<Event>, start: Scope,
                 s: Queue, server: Server, r: RunId, run: Run)
    returns (longer: seq<State>, more: seq<Event>)
    requires Ends(states, events, start, State(s, server))
    requires s.runs == map[r := run] && s.inFlight == map[run.edit.id := r] && run.phase.Ended?
    ensures OneMore(states, events, Around(Reaped(r)), State(s.(runs := map[], inFlight := map[]), server), start,
                    longer, more)
  {
    Finish(s, r, run);
    var n := State(s.(runs := map[], inFlight := map[]), server);
    longer, more := Next(states, events, start, State(s, server), Around(Reaped(r)), n);
  }

  lemma ThenMove(states: seq<State>, events: seq<Event>, start: Scope,
                 s: Queue, server: Server, scope: Scope)
    returns (longer: seq<State>, more: seq<Event>)
    requires Ends(states, events, start, State(s, server))
    requires s.runs == map[]
    ensures OneMore(states, events, Around(LibraryAdvanced(scope)),
                    State(s.(shown := None, library := s.library + 1, scope := scope), server),
                    start, longer, more)
  {
    assert Retired(s) == s.(shown := None);
    var n := State(s.(shown := None, library := s.library + 1, scope := scope), server);
    longer, more := Next(states, events, start, State(s, server), Around(LibraryAdvanced(scope)), n);
  }

  lemma ThenApply(states: seq<State>, events: seq<Event>, start: Scope,
                  s: Queue, server: Server, i: nat)
    returns (longer: seq<State>, more: seq<Event>)
    requires Ends(states, events, start, State(s, server))
    requires i < |s.requests|
    ensures OneMore(states, events, Delivered(i, true), State(s, ServerTurn(server, s.requests[i], true)), start,
                    longer, more)
  {
    var n := State(s, ServerTurn(server, s.requests[i], true));
    longer, more := Next(states, events, start, State(s, server), Delivered(i, true), n);
  }

  /** A retry that starts the page's only run, in a scope whose list has not been read. */
  function Retried(s: Queue, r: RunId, edit: Edit): Queue
  {
    s.(runs := map[r := Run(edit, s.scope, s.connection, s.library, AwaitingResponse)], inFlight := map[edit.id := r],
       usedRuns := s.usedRuns + {r}, retained := s.retained[s.scope := [edit]], stored := s.stored[s.scope := [edit]],
       requests := s.requests + [Request(r, edit.id, edit.operation, edit.content)])
  }

  lemma RetryUnread(s: Queue, r: RunId, edit: Edit)
    requires s.runs == map[] && s.inFlight == map[] && s.scope !in s.retained && !s.blocked && s.storageWorks
    requires edit in s.published && edit.content.basis.Some? && ValidBasis(edit.content.basis.value)
    ensures Execute(s, r, edit) == Retried(s, r, edit)
  {
    OneEdit(edit, s.scope);
    ExecuteAlone(s, r, edit);
    assert s.published + {edit} == s.published;
  }

  lemma ThenRetry(states: seq<State>, events: seq<Event>, start: Scope,
                  s: Queue, server: Server, r: RunId, edit: Edit, first: Id, second: Id)
    returns (longer: seq<State>, more: seq<Event>)
    requires Ends(states, events, start, State(s, server))
    requires s.runs == map[] && s.inFlight == map[] && s.waiting == map[] && s.scope !in s.retained && !s.blocked &&
             s.storageWorks
    requires edit in s.published && edit.content.basis.Some? && ValidBasis(edit.content.basis.value)
    requires r !in s.usedRuns && first !in s.issued && second !in s.issued && first != second
    ensures OneMore(states, events, Choose(edit, Retry, r, first, second),
                    State(Retried(s, r, edit), server), start, longer, more)
  {
    RetryUnread(s, r, edit);
    var n := State(Retried(s, r, edit), server);
    longer, more := Next(states, events, start, State(s, server), Choose(edit, Retry, r, first, second), n);
  }

  /** A review that starts a run in a page with none. */
  function AfterReview(s: Queue, r: RunId, next: Edit): Queue
  {
    s.(runs := map[r := Run(next, s.scope, s.connection, s.library, AwaitingResponse)], inFlight := map[next.id := r],
       usedRuns := s.usedRuns + {r}, retained := map[s.scope := [next]], stored := s.stored[s.scope := [next]],
       published := s.published + {next}, requests := s.requests + [Request(r, next.id, next.operation, next.content)],
       issued := s.issued[next.operation := Identity(next.id, next.content)],
       renewals := s.renewals[next.id := (if next.id in s.renewals then s.renewals[next.id] else 0) + 1])
  }

  lemma Review(s: Queue, edit: Edit, r: RunId, first: Id, second: Id)
    requires s.runs == map[] && s.inFlight == map[] && s.waiting == map[] && s.retained == map[s.scope := [edit]]
    requires !s.blocked && s.storageWorks && edit.recovery.None? && edit.conflict.Some? &&
             edit.conflict.value.reviewable
    requires edit.content.basis.Some? && ValidBasis(edit.content.basis.value)
    ensures ChoiceMade(s, edit, Reviewed, r, first, second) == AfterReview(s, r, WithReview(edit, second))
  {
    var next := WithReview(edit, second);
    var reviewed := ReviewedState(s, edit, first, second);
    assert reviewed == Renew(s, next);
    OneEdit(edit, s.scope);
    ExecuteAlone(reviewed, r, next);
    assert s.retained[s.scope := [next]] == map[s.scope := [next]];
  }

  lemma ThenReview(states: seq<State>, events: seq<Event>, start: Scope,
                   s: Queue, server: Server, edit: Edit, r: RunId, first: Id, second: Id)
    returns (longer: seq<State>, more: seq<Event>)
    requires Ends(states, events, start, State(s, server))
    requires s.runs == map[] && s.inFlight == map[] && s.waiting == map[] && s.retained == map[s.scope := [edit]]
    requires !s.blocked && s.storageWorks && edit.recovery.None? && edit.conflict.Some? &&
             edit.conflict.value.reviewable
    requires edit.content.basis.Some? && ValidBasis(edit.content.basis.value)
    requires edit in s.published && r !in s.usedRuns && first !in s.issued && second !in s.issued && first != second
    ensures OneMore(states, events, Choose(edit, Reviewed, r, first, second),
                    State(AfterReview(s, r, WithReview(edit, second)), server), start, longer, more)
  {
    Review(s, edit, r, first, second);
    var n := State(AfterReview(s, r, WithReview(edit, second)), server);
    longer, more := Next(states, events, start, State(s, server), Choose(edit, Reviewed, r, first, second), n);
  }

  /** A page at rest in its scope: nothing running, storage working, one edit listed. */
  ghost predicate AtRest(s: Queue, edit: Edit)
  {
    && s.runs == map[] && s.inFlight == map[] && s.waiting == map[] && !s.listening && !s.blocked && s.storageWorks
    && edit in s.published && edit.recovery.None? && edit.content.basis.Some? && ValidBasis(edit.content.basis.value)
  }

  // ----- A list overwritten unread --------------------------------------------

  /** Two edits of two scopes. */
  datatype Pair = Pair(here: Scope, there: Scope, a: Id, b: Id, opA: Id, opB: Id, first: Id, second: Id,
                       contentA: Content, contentB: Content)

  ghost predicate ProperPair(p: Pair)
  {
    && p.here != p.there && p.a != p.b && p.opA != p.opB && p.first !in {p.opA, p.opB}
    && p.second !in {p.opA, p.opB, p.first}
    && Sendable(p.contentA) && Sendable(p.contentB)
  }

  function EditA(p: Pair): Edit
  {
    FreshEditOf(p.a, p.opA, p.contentA).(message := UNCONFIRMED)
  }

  function EditB(p: Pair): Edit
  {
    FreshEditOf(p.b, p.opB, p.contentB)
  }

  /** Nothing is discarded, and nothing reaches the server. */
  ghost predicate Quiet(events: seq<Event>)
  {
    forall e :: e in events ==> !(e.Choose? && e.choice.Discard?) && !e.Delivered?
  }

  lemma QuietNext(events: seq<Event>, e: Event)
    requires Quiet(events) && !(e.Choose? && e.choice.Discard?) && !e.Delivered?
    ensures Quiet(events + [e])
  {
  }

  /** The page has reloaded into the other scope. */
  lemma SendB(p: Pair)
    returns (states: seq<State>, events: seq<Event>, stored: map<Scope, seq<Edit>>, before: seq<Request>,
             issued: map<Id, Identity>)
    requires ProperPair(p)
    ensures |states| == 3 && Ends(states, events, p.there,
                                  State(Started0(p.here, stored, before, issued, map[], {0}), Server(map[], [])))
    ensures stored == map[p.there := [EditB(p)]] && issued == map[p.opB := Identity(p.b, p.contentB)]
    ensures Quiet(events)
  {
    var server, q1 := Server(map[], []), Sent1(p.there, map[], [], map[], {}, 0, p.b, p.opB, p.contentB);
    states, events := Begin(p.there);
    QuietNext(events, Send(0, p.b, p.opB, p.contentB));
    states, events := ThenFirstSend(states, events, p.there, p.there, map[], [], map[], {}, server, 0, p.b, p.opB,
                                    p.contentB);
    stored, before, issued := q1.stored, q1.requests, q1.issued;
    QuietNext(events, Around(Reloaded(p.here)));
    states, events := ThenReload(states, events, p.there, q1, server, p.here);
  }

  lemma SendA(p: Pair) returns (states: seq<State>, events: seq<Event>, q: Queue)
    requires ProperPair(p)
    ensures |states| == 4 && Ends(states, events, p.there, State(q, Server(map[], [])))
    ensures Quiet(events)
    ensures var edit := FreshEditOf(p.a, p.opA, p.contentA);
            && q.runs == map[1 := Run(edit, p.here, 0, 0, AwaitingResponse)]
            && q.retained == map[p.here := [edit]] && q.inFlight == map[p.a := 1]
    ensures !q.listening && !q.blocked && q.storageWorks && q.connection == q.library == 0 && q.waiting == map[]
    ensures p.there in q.stored && q.stored[p.there] == [EditB(p)] && q.issued.Keys == {p.opA, p.opB} &&
            q.usedRuns == {0, 1}
  {
    var server, stored, before, issued := Server(map[], []), map[], [], map[];
    states, events, stored, before, issued := SendB(p);
    q := Sent1(p.here, stored, before, issued, {0}, 1, p.a, p.opA, p.contentA);
    QuietNext(events, Send(1, p.a, p.opA, p.contentA));
    states, events := ThenFirstSend(states, events, p.there, p.here, stored, before, issued, {0}, server, 1, p.a,
                                    p.opA, p.contentA);
  }

  lemma LoseA(p: Pair) returns (states: seq<State>, events: seq<Event>, q: Queue)
    requires ProperPair(p)
    ensures |states| == 5 && Ends(states, events, p.there, State(q, Server(map[], [])))
    ensures Quiet(events)
    ensures q.runs == map[1 := Run(EditA(p), p.here, 0, 0, Ended)] && q.retained == map[p.here := [EditA(p)]] &&
            q.inFlight == map[p.a := 1]
    ensures !q.listening && !q.blocked && q.storageWorks && q.waiting == map[] && EditA(p) in q.published
    ensures p.there in q.stored && q.stored[p.there] == [EditB(p)] && q.issued.Keys == {p.opA, p.opB} &&
            q.usedRuns == {0, 1}
  {
    var server, before := Server(map[], []), Initial(p.there).queue;
    states, events, before := SendA(p);
    q := AfterFailure(before, 1, EditA(p), p.here);
    QuietNext(events, Answered(1, Lost));
    states, events := ThenLose(states, events, p.there, before, server, 1, FreshEditOf(p.a, p.opA, p.contentA), p.here);
  }

  lemma ReapA(p: Pair) returns (states: seq<State>, events: seq<Event>, q: Queue)
    requires ProperPair(p)
    ensures |states| == 6 && Ends(states, events, p.there, State(q, Server(map[], [])))
    ensures Quiet(events)
    ensures AtRest(q, EditA(p)) && q.retained == map[p.here := [EditA(p)]]
    ensures p.there in q.stored && q.stored[p.there] == [EditB(p)] && q.issued.Keys == {p.opA, p.opB} &&
            q.usedRuns == {0, 1}
  {
    var server, before := Server(map[], []), Initial(p.there).queue;
    states, events, before := LoseA(p);
    q := before.(runs := map[], inFlight := map[]);
    QuietNext(events, Around(Reaped(1)));
    states, events := ThenReap(states, events, p.there, before, server, 1, Run(EditA(p), p.here, 0, 0, Ended));
  }

  lemma MoveThere(p: Pair) returns (states: seq<State>, events: seq<Event>, q: Queue)
    requires ProperPair(p)
    ensures |states| == 7 && Ends(states, events, p.there, State(q, Server(map[], [])))
    ensures Quiet(events)
    ensures AtRest(q, EditA(p)) && q.scope == p.there && p.there !in q.retained
    ensures p.there in q.stored && q.stored[p.there] == [EditB(p)] && q.issued.Keys == {p.opA, p.opB} &&
            q.usedRuns == {0, 1}
  {
    var server, before := Server(map[], []), Initial(p.there).queue;
    states, events, before := ReapA(p);
    q := before.(shown := None, library := before.library + 1, scope := p.there);
    QuietNext(events, Around(LibraryAdvanced(p.there)));
    states, events := ThenMove(states, events, p.there, before, server, p.there);
  }

  lemma RetryThere(p: Pair) returns (states: seq<State>, events: seq<Event>, q: Queue, n: Queue)
    requires ProperPair(p)
    ensures |states| == 8 && Ends(states, events, p.there, State(n, Server(map[], []))) && Quiet(events) &&
            states[6].queue == q
    ensures p.there !in q.retained && p.there in q.stored && q.stored[p.there] == [EditB(p)]
    ensures p.there in n.retained && n.retained[p.there] == [EditA(p)] && p.there in n.stored &&
            n.stored[p.there] == [EditA(p)]
  {
    states, events, q := MoveThere(p);
    n := Retried(q, 2, EditA(p));
    QuietNext(events, Choose(EditA(p), Retry, 2, p.first, p.second));
    states, events := ThenRetry(states, events, p.there, q, Server(map[], []), 2, EditA(p), p.first, p.second);
  }

  /** An edit retried in a scope whose list this page has not read: the list that storage
      still held is overwritten, and its edit is gone from memory and from storage. */
  lemma RetryOverwritesUnreadList(p: Pair) returns (states: seq<State>, events: seq<Event>, q: Queue, n: Queue)
    requires ProperPair(p) && ValidPending(EditB(p), p.there)
    ensures Ends(states, events, p.there, State(n, Server(map[], []))) && Quiet(events)
    ensures |states| == 8 && states[6].queue == q && Visible(q, p.there) == [Recovered(EditB(p))]
    ensures Visible(n, p.there) == Stored(n, p.there) == [EditA(p)]
  {
    states, events, q, n := RetryThere(p);
    OneEdit(EditB(p), p.there);
  }

  // ----- The same request accepted twice --------------------------------------

  /** An edit, the conflict it meets, and the identities drawn for it. */
  datatype Story = Story(scope: Scope, id: Id, op: Id, first: Id, second: Id, third: Id, fourth: Id, content: Content,
                         conflict: Conflict)

  function Conflicted(t: Story): Edit
  {
    Edit(t.id, t.content, t.op, "", Some(t.conflict), None)
  }

  function Reviewed1(t: Story): Edit
  {
    Edit(t.id, t.content.(reviewed := map[t.conflict.unit := t.conflict.revision]), t.second, "", Some(t.conflict),
         None)
  }

  function Reviewed2(t: Story): Edit
  {
    Recovered(Reviewed1(t)).(operation := t.fourth)
  }

  function FirstRequest(t: Story): Request
  {
    Request(1, t.id, t.second, Reviewed1(t).content)
  }

  function SecondRequest(t: Story): Request
  {
    Request(2, t.id, t.fourth, Reviewed1(t).content)
  }

  ghost predicate Proper(t: Story)
  {
    && Sendable(t.content) && t.conflict.reviewable
    && t.first != t.op && t.second != t.op && t.first != t.second
    && t.third !in {t.op, t.first, t.second} && t.fourth !in {t.op, t.first, t.second, t.third}
  }

  lemma Reject(t: Story) returns (states: seq<State>, events: seq<Event>, q: Queue)
    requires Proper(t)
    ensures Ends(states, events, t.scope, State(q, Server(map[], [])))
    ensures var edit := FreshEditOf(t.id, t.op, t.content);
            && q.runs == map[0 := Run(edit, t.scope, 0, 0, ReadingError)]
            && q.retained == map[t.scope := [edit]] && q.inFlight == map[t.id := 0]
    ensures !q.listening && !q.blocked && q.storageWorks && q.connection == q.library == 0 && q.waiting == map[] &&
            q.scope == t.scope
    ensures |q.requests| == 1 && q.issued.Keys == {t.op} && q.usedRuns == {0}
  {
    var server, q1 := Server(map[], []), Sent1(t.scope, map[], [], map[], {}, 0, t.id, t.op, t.content);
    var run := Run(FreshEditOf(t.id, t.op, t.content), t.scope, 0, 0, AwaitingResponse);
    states, events := Begin(t.scope);
    states, events := ThenFirstSend(states, events, t.scope, t.scope, map[], [], map[], {}, server, 0, t.id, t.op,
                                    t.content);
    q := q1.(runs := map[0 := run.(phase := ReadingError)]);
    states, events := ThenRejected(states, events, t.scope, q1, server, 0, run);
  }

  lemma MeetConflict(t: Story) returns (states: seq<State>, events: seq<Event>, q: Queue)
    requires Proper(t)
    ensures Ends(states, events, t.scope, State(q, Server(map[], [])))
    ensures q.runs == map[0 := Run(Conflicted(t), t.scope, 0, 0, Ended)] && q.inFlight == map[t.id := 0]
    ensures q.retained == map[t.scope := [Conflicted(t)]] && Conflicted(t) in q.published
    ensures !q.listening && !q.blocked && q.storageWorks && q.waiting == map[] && q.scope == t.scope
    ensures |q.requests| == 1 && q.issued.Keys == {t.op} && q.usedRuns == {0}
  {
    var server, before := Server(map[], []), Initial(t.scope).queue;
    states, events, before := Reject(t);
    q := AfterFailure(before, 0, Conflicted(t), t.scope);
    states, events := ThenConflict(states, events, t.scope, before, server, 0, FreshEditOf(t.id, t.op, t.content),
                                   t.scope, t.conflict);
  }

  lemma RestConflicted(t: Story) returns (states: seq<State>, events: seq<Event>, q: Queue)
    requires Proper(t)
    ensures Ends(states, events, t.scope, State(q, Server(map[], [])))
    ensures AtRest(q, Conflicted(t)) && q.scope == t.scope && q.retained == map[t.scope := [Conflicted(t)]]
    ensures |q.requests| == 1 && q.issued.Keys == {t.op} && q.usedRuns == {0}
  {
    var server, before := Server(map[], []), Initial(t.scope).queue;
    states, events, before := MeetConflict(t);
    q := before.(runs := map[], inFlight := map[]);
    states, events := ThenReap(states, events, t.scope, before, server, 0, Run(Conflicted(t), t.scope, 0, 0, Ended));
  }

  lemma FirstReview(t: Story)
    requires Proper(t)
    ensures WithReview(Conflicted(t), t.second) == Reviewed1(t)
  {
    assert map[][t.conflict.unit := t.conflict.revision] == map[t.conflict.unit := t.conflict.revision];
  }

  lemma SecondReview(t: Story)
    ensures WithReview(Recovered(Reviewed1(t)), t.fourth) == Reviewed2(t)
  {
    var c := t.conflict;
    assert map[c.unit := c.revision][c.unit := c.revision] == map[c.unit := c.revision];
  }

  lemma SendReview(t: Story) returns (states: seq<State>, events: seq<Event>, q: Queue)
    requires Proper(t)
    ensures Ends(states, events, t.scope, State(q, Server(map[], [])))
    ensures !q.listening && !q.blocked && q.storageWorks && t.scope in q.stored && q.stored[t.scope] == [Reviewed1(t)]
    ensures |q.requests| == 2 && q.requests[1] == FirstRequest(t) && q.issued.Keys == {t.op, t.second} &&
            q.usedRuns == {0, 1}
  {
    var server, before := Server(map[], []), Initial(t.scope).queue;
    states, events, before := RestConflicted(t);
    FirstReview(t);
    q := AfterReview(before, 1, Reviewed1(t));
    states, events := ThenReview(states, events, t.scope, before, server, Conflicted(t), 1, t.first, t.second);
  }

  function Applied1(t: Story): Server
  {
    Server(map[t.second := Reviewed1(t).content], [FirstRequest(t)])
  }

  lemma ApplyReview(t: Story) returns (states: seq<State>, events: seq<Event>, q: Queue)
    requires Proper(t)
    ensures Ends(states, events, t.scope, State(q, Applied1(t)))
    ensures !q.listening && !q.blocked && q.storageWorks && t.scope in q.stored && q.stored[t.scope] == [Reviewed1(t)]
    ensures |q.requests| == 2 && q.requests[1] == FirstRequest(t) && q.issued.Keys == {t.op, t.second} &&
            q.usedRuns == {0, 1}
  {
    var server := Server(map[], []);
    states, events, q := SendReview(t);
    assert ServerTurn(server, FirstRequest(t), true) == Applied1(t) by {
      assert map[][t.second := Reviewed1(t).content] == map[t.second := Reviewed1(t).content];
    }
    states, events := ThenApply(states, events, t.scope, q, server, 1);
  }

  /** The page after the first review has been sent, applied, and forgotten by a reload. */
  lemma ReloadAndRead(t: Story) returns (states: seq<State>, events: seq<Event>, q: Queue)
    requires Proper(t) && ValidPending(Reviewed1(t), t.scope)
    ensures Ends(states, events, t.scope, State(q, Applied1(t)))
    ensures AtRest(q, Recovered(Reviewed1(t))) && q.scope == t.scope &&
            q.retained == map[t.scope := [Recovered(Reviewed1(t))]]
    ensures |q.requests| == 2 && q.requests[1] == FirstRequest(t) && q.issued.Keys == {t.op, t.second} &&
            q.usedRuns == {0, 1}
  {
    var server, before := Applied1(t), Initial(t.scope).queue;
    states, events, before := ApplyReview(t);
    var reloaded := Started0(t.scope, before.stored, before.requests, before.issued, before.renewals, before.usedRuns);
    states, events := ThenReload(states, events, t.scope, before, server, t.scope);
    OneEdit(Recovered(Reviewed1(t)), t.scope);
    var list := [Recovered(Reviewed1(t))];
    q := reloaded.(retained := reloaded.retained[t.scope := list], published := reloaded.published + Elems(list));
    states, events := ThenList(states, events, t.scope, reloaded, server, Reviewed1(t));
  }

  lemma ReviewAgain(states: seq<State>, events: seq<Event>, before: Queue, t: Story)
    returns (longer: seq<State>, more: seq<Event>, q: Queue)
    requires Proper(t) && Ends(states, events, t.scope, State(before, Applied1(t)))
    requires AtRest(before, Recovered(Reviewed1(t))) && before.scope == t.scope
    requires before.retained == map[t.scope := [Recovered(Reviewed1(t))]]
    requires |before.requests| == 2 && before.requests[1] == FirstRequest(t)
    requires before.issued.Keys == {t.op, t.second} && before.usedRuns == {0, 1}
    ensures Ends(longer, more, t.scope, State(q, Applied1(t)))
    ensures |q.requests| == 3 && q.requests[1] == FirstRequest(t) && q.requests[2] == SecondRequest(t)
  {
    SecondReview(t);
    q := AfterReview(before, 2, Reviewed2(t));
    longer, more := ThenReview(states, events, t.scope, before, Applied1(t), Recovered(Reviewed1(t)), 2, t.third,
                               t.fourth);
  }

  /** A conflict, acknowledged; the acknowledged request applied; a reload before its reply is
      read; and the same conflict, still shown, acknowledged again. The two requests ask the
      same under two identities, and the server accepts both under two receipts. */
  lemma ReviewedTwiceIsAcceptedTwice(t: Story) returns (states: seq<State>, events: seq<Event>, last: State,
                                                        a: Request, b: Request)
    requires Proper(t) && ValidPending(Reviewed1(t), t.scope)
    ensures Ends(states, events, t.scope, last) && last.server.applied == [a, b]
    ensures a in last.queue.requests && b in last.queue.requests
    ensures a.edit == b.edit == t.id && a.content == b.content && a.operation != b.operation
  {
    var q := Initial(t.scope).queue;
    a, b := FirstRequest(t), SecondRequest(t);
    states, events, q := ReloadAndRead(t);
    states, events, q := ReviewAgain(states, events, q, t);
    last := State(q, ServerTurn(Applied1(t), b, true));
    states, events := ThenApply(states, events, t.scope, q, Applied1(t), 2);
    AppliedBoth(t);
  }

  lemma AppliedBoth(t: Story)
    requires Proper(t)
    ensures ServerTurn(Applied1(t), SecondRequest(t), true).applied == [FirstRequest(t), SecondRequest(t)]
  {
  }
}
