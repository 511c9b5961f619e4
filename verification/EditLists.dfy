/** What happens to the retained lists: ids stay unique, what a step writes, what it loses and
    gains, and what storage brings back. */
module EditLists {
  import opened Core
  import opened EditBasis
  import opened EditQueue
  import opened EditIdentity

  ghost predicate Named(items: seq<Edit>, id: Id)
  {
    exists e :: e in items && e.id == id
  }

  ghost predicate UniqueIds(items: seq<Edit>)
  {
    forall i, j :: 0 <= i < j < |items| ==> items[i].id != items[j].id
  }

  ghost predicate Unique(s: Queue)
  {
    && (forall key :: key in s.retained ==> UniqueIds(s.retained[key]))
    && (forall key :: key in s.stored ==> UniqueIds(s.stored[key]))
  }

  function Stored(s: Queue, key: Scope): seq<Edit>
  {
    if key in s.stored then s.stored[key] else []
  }

  /** A scope's list as its owner sees it: what is in memory or, until the page has read it,
      what would be read. */
  function Visible(s: Queue, key: Scope): seq<Edit>
  {
    if key in s.retained then s.retained[key] else RecoveredList(Stored(s, key), key)
  }

  /** Memory is what storage holds, or what was recovered from it. */
  ghost predicate Synced(s: Queue)
  {
    forall key :: key in s.retained ==>
      s.retained[key] == Stored(s, key) || s.retained[key] == RecoveredList(Stored(s, key), key)
  }

  // ----- Facts about lists ----------------------------------------------------

  lemma {:induction false} DroppedUnique(items: seq<Edit>, id: Id)
    requires UniqueIds(items)
    ensures UniqueIds(Dropped(items, id))
  {
    if items != [] {
      DroppedUnique(Init(items), id);
      DroppedElems(Init(items), id);
      var rest := Dropped(Init(items), id);
      forall i | 0 <= i < |rest|
        ensures rest[i].id != Last(items).id
      {
        assert rest[i] in Init(items);
      }
    }
  }

  lemma AppendUnique(items: seq<Edit>, edit: Edit)
    requires UniqueIds(items)
    ensures UniqueIds(Dropped(items, edit.id) + [edit])
  {
    DroppedUnique(items, edit.id);
    DroppedElems(items, edit.id);
    var rest := Dropped(items, edit.id);
    forall i | 0 <= i < |rest|
      ensures rest[i].id != edit.id
    {
      assert rest[i] in rest;
    }
  }

  lemma {:induction false} RecoveredUnique(items: seq<Edit>, scope: Scope)
    requires UniqueIds(items)
    ensures UniqueIds(RecoveredList(items, scope))
    ensures forall id :: Named(RecoveredList(items, scope), id) ==> Named(items, id)
  {
    if items != [] {
      RecoveredUnique(Init(items), scope);
      var rest := RecoveredList(Init(items), scope);
      assert items == Init(items) + [Last(items)];
      forall i | 0 <= i < |rest|
        ensures rest[i].id != Last(items).id
      {
        assert Named(rest, rest[i].id);
        var e :| e in Init(items) && e.id == rest[i].id;
      }
      forall id | Named(RecoveredList(items, scope), id)
        ensures Named(items, id)
      {
        var e :| e in RecoveredList(items, scope) && e.id == id;
        if e in rest {
          assert Named(rest, id);
          var f :| f in Init(items) && f.id == id;
          assert f in items;
        } else {
          assert Last(items) in items;
        }
      }
    }
  }

  /** Reading back what was read back changes nothing. */
  lemma {:induction false} RecoveredTwice(items: seq<Edit>, scope: Scope)
    ensures RecoveredList(RecoveredList(items, scope), scope) == RecoveredList(items, scope)
  {
    if items != [] {
      var rest, last := RecoveredList(Init(items), scope), Last(items);
      RecoveredTwice(Init(items), scope);
      if ValidPending(last, scope) {
        RecoveredStaysValid(last, scope);
        RecoveredNext(rest, Recovered(last), scope);
      }
    }
  }

  lemma RecoveredStaysValid(edit: Edit, scope: Scope)
    ensures ValidPending(Recovered(edit), scope) <==> ValidPending(edit, scope)
    ensures Recovered(Recovered(edit)) == Recovered(edit)
  {
  }

  lemma RecoveredNext(items: seq<Edit>, edit: Edit, scope: Scope)
    requires ValidPending(edit, scope)
    ensures RecoveredList(items + [edit], scope) == RecoveredList(items, scope) + [Recovered(edit)]
  {
    assert Init(items + [edit]) == items && Last(items + [edit]) == edit;
  }

  /** Retaining twice in a row is retaining once. */
  lemma {:induction false} DroppedTwice(items: seq<Edit>, id: Id)
    ensures Dropped(Dropped(items, id), id) == Dropped(items, id)
  {
    if items != [] {
      DroppedTwice(Init(items), id);
      if Last(items).id != id {
        var list := Dropped(items, id);
        assert Init(list) == Dropped(Init(items), id) && Last(list) == Last(items);
      }
    }
  }

  lemma DroppedThenKept(items: seq<Edit>, edit: Edit)
    ensures Dropped(Dropped(items, edit.id) + [edit], edit.id) == Dropped(items, edit.id)
  {
    DroppedTwice(items, edit.id);
    var list := Dropped(items, edit.id) + [edit];
    assert Init(list) == Dropped(items, edit.id) && Last(list) == edit;
  }

  lemma NamedAppend(items: seq<Edit>, edit: Edit, id: Id)
    ensures Named(items + [edit], id) <==> Named(items, id) || edit.id == id
  {
    if Named(items, id) {
      var e :| e in items && e.id == id;
      assert e in items + [edit];
    }
    if edit.id == id {
      assert edit in items + [edit];
    }
  }

  lemma NamedDropped(items: seq<Edit>, gone: Id, id: Id)
    ensures Named(Dropped(items, gone), id) <==> Named(items, id) && id != gone
  {
    DroppedElems(items, gone);
    if Named(items, id) && id != gone {
      var e :| e in items && e.id == id;
      assert e in Dropped(items, gone);
    }
  }

  lemma NotNamedEarlier(items: seq<Edit>)
    requires items != [] && UniqueIds(items)
    ensures !Named(Init(items), Last(items).id)
  {
  }

  // ----- What a step writes ---------------------------------------------------

  datatype Write = Nothing | Rewrite(key: Scope) | Put(key: Scope, edit: Edit) | Drop(key: Scope, id: Id)

  /** The lists become what publishing `items` under `key` makes them. */
  ghost predicate Publishes(s: Queue, n: Queue, key: Scope, items: seq<Edit>)
  {
    && n.retained == s.retained[key := items]
    && n.storageWorks == s.storageWorks
    && n.stored == (if s.storageWorks then s.stored[key := items] else s.stored)
  }

  ghost predicate Untouched(s: Queue, n: Queue)
  {
    n.retained == s.retained && n.stored == s.stored && n.storageWorks == s.storageWorks
  }

  ghost predicate Wrote(s: Queue, n: Queue, w: Write)
  {
    match w
    case Nothing => Untouched(s, n)
    case Rewrite(key) => Publishes(s, n, key, ListOf(s, key))
    case Put(key, edit) => Publishes(s, n, key, Dropped(ListOf(s, key), edit.id) + [edit])
    case Drop(key, id) => Publishes(s, n, key, Dropped(ListOf(s, key), id))
  }

  /** The page reads the active scope's list before it does anything else. */
  predicate ReadsFirst(s: Queue, e: Event)
  {
    e.Send? || e.ListRead? || (e.Choose? && e.edit.id !in s.waiting && (e.choice.Keep? || e.choice.Discard?))
  }

  function Base(s: Queue, e: Event): Queue
  {
    if ReadsFirst(s, e) then Loaded(s) else s
  }

  /** The edit as an attempt leaves it in the list. */
  function Attempted(s: Queue, edit: Edit): Edit
  {
    if s.blocked then edit.(message := BLOCKED) else edit
  }

  function Executed(s: Queue, edit: Edit): Write
  {
    if edit.id in s.inFlight then Nothing else Put(s.scope, Attempted(s, edit))
  }

  function AnswerWrite(run: Run, answer: Answer): Write
  {
    match answer
    case BasisFetched(basis) =>
      Put(run.key, run.edit.(message := if basis.Some? then REVIEW_FIRST else NO_OPENING, conflict := None,
                             recovery := basis))
    case Responded(_) => Nothing
    case Lost => Put(run.key, run.edit.(message := UNCONFIRMED, conflict := None, recovery := None))
    case OkBody(readable) =>
      if readable then Drop(run.key, run.edit.id)
      else Put(run.key, run.edit.(message := UNCONFIRMED, conflict := None, recovery := None))
    case ErrorBody(message, conflict) => Put(run.key, run.edit.(message := message, conflict := conflict,
                                                                recovery := None))
  }

  function ChoiceWrite(s: Queue, edit: Edit, choice: Choice, first: Id, second: Id): Write
  {
    if edit.id in s.waiting then Nothing
    else
      match choice
      case Keep => Rewrite(s.scope)
      case Discard => Drop(s.scope, edit.id)
      case Retry => Executed(s, edit)
      case Reviewed => Executed(s, ReviewedEdit(edit, first, second))
  }

  function ResumedWrite(s: Queue, run: Run, choice: Choice, first: Id, second: Id): Write
  {
    match choice
    case Keep => Rewrite(run.key)
    case Discard => Drop(run.key, run.edit.id)
    case Retry => Put(run.key, Attempted(s, run.edit))
    case Reviewed => Put(run.key, Attempted(s, ReviewedEdit(run.edit, first, second)))
  }

  /** What a step writes, once the list it reads first is read. */
  function StepWrite(s: Queue, e: Event): Write
    requires e.Answered? || e.Resumed? ==> e.run in s.runs
    requires e.Resumed? ==> s.runs[e.run].phase.Chosen?
  {
    match e
    case Send(_, id, op, content) =>
      var pending := Match(ListOf(s, s.scope), content);
      Executed(s, if pending.Some? then pending.value else Edit(id, content, op, "", None, None))
    case Choose(edit, choice, _, first, second) => ChoiceWrite(s, edit, choice, first, second)
    case Answered(r, answer) => if Fenced(s, r) then AnswerWrite(s.runs[r], answer) else Nothing
    case Resumed(r, first, second) =>
      if Fenced(s, r) then ResumedWrite(s, s.runs[r], s.runs[r].phase.choice, first, second) else Nothing
    case ListRead => Nothing
    case Around(_) => Nothing
    case Delivered(_, _) => Nothing
  }

  lemma RefusedPublishes(s: Queue, r: RunId)
    requires r in s.runs && s.blocked
    ensures Wrote(s, Attempt(s, r), Put(s.runs[r].key, Attempted(s, s.runs[r].edit)))
  {
    var run := s.runs[r];
    var kept := Retain(s, run.key, run.edit);
    var refused := run.edit.(message := BLOCKED);
    var list := Dropped(ListOf(s, run.key), run.edit.id) + [refused];
    DroppedThenKept(ListOf(s, run.key), run.edit);
    assert ListOf(kept, run.key) == Dropped(ListOf(s, run.key), run.edit.id) + [run.edit];
    RefuseWrites(kept, r);
    TwicePublished(s, kept, Attempt(s, r), run.key, ListOf(kept, run.key), list);
  }

  lemma RefuseWrites(s: Queue, r: RunId)
    requires r in s.runs
    ensures var refused := s.runs[r].edit.(message := BLOCKED);
            Publishes(s, Refuse(s, r), s.runs[r].key, Dropped(ListOf(s, s.runs[r].key), refused.id) + [refused])
  {
  }

  lemma TwicePublished(s: Queue, m: Queue, n: Queue, key: Scope, first: seq<Edit>, items: seq<Edit>)
    requires Publishes(s, m, key, first) && Publishes(m, n, key, items)
    ensures Publishes(s, n, key, items)
  {
    assert s.retained[key := first][key := items] == s.retained[key := items];
    assert s.stored[key := first][key := items] == s.stored[key := items];
  }

  lemma AttemptWrites(s: Queue, r: RunId)
    requires r in s.runs
    ensures Wrote(s, Attempt(s, r), Put(s.runs[r].key, Attempted(s, s.runs[r].edit)))
  {
    if s.blocked {
      RefusedPublishes(s, r);
    } else {
      var kept := Retain(s, s.runs[r].key, s.runs[r].edit);
      var n := Attempt(s, r);
      assert n == InPhase(kept, r, Recovering) || n == Transmit(kept, r);
      assert Untouched(kept, n);
    }
  }

  lemma ExecuteWrites(s: Queue, r: RunId, edit: Edit)
    ensures Wrote(s, Execute(s, r, edit), Executed(s, edit))
  {
    if edit.id !in s.inFlight {
      var started := Started(s, r, edit);
      AttemptWrites(started, r);
      assert Untouched(s, started) && started.runs[r].edit == edit && started.runs[r].key == s.scope;
    }
  }

  lemma FailedWrites(s: Queue, r: RunId, message: string, conflict: Option<Conflict>, recovery: Option<Basis>)
    requires r in s.runs
    ensures Wrote(s, Failed(s, r, message, conflict, recovery),
                  Put(s.runs[r].key, s.runs[r].edit.(message := message, conflict := conflict, recovery := recovery)))
  {
  }

  lemma AnswerWrites(s: Queue, r: RunId, answer: Answer)
    requires r in s.runs
    ensures Wrote(s, AfterAnswer(s, r, answer), AnswerWrite(s.runs[r], answer))
  {
    match answer
    case BasisFetched(basis) => FailedWrites(s, r, if basis.Some? then REVIEW_FIRST else NO_OPENING, None, basis);
    case Responded(_) =>
    case Lost => FailedWrites(s, r, UNCONFIRMED, None, None);
    case OkBody(_) => FailedWrites(s, r, UNCONFIRMED, None, None);
    case ErrorBody(message, conflict) => FailedWrites(s, r, message, conflict, None);
  }

  lemma RevisedWrites(s: Queue, r: RunId, first: Id, second: Id)
    requires r in s.runs
    ensures Wrote(s, Attempt(Revised(s, r, first, second), r),
                  Put(s.runs[r].key, Attempted(s, ReviewedEdit(s.runs[r].edit, first, second))))
  {
    var revised := Revised(s, r, first, second);
    AttemptWrites(revised, r);
    assert Untouched(s, revised) && revised.runs[r].key == s.runs[r].key;
    assert revised.runs[r].edit == ReviewedEdit(s.runs[r].edit, first, second);
  }

  lemma AfterChoiceWrites(s: Queue, r: RunId, choice: Choice, first: Id, second: Id)
    requires r in s.runs
    ensures Wrote(s, AfterChoice(s, r, choice, first, second), ResumedWrite(s, s.runs[r], choice, first, second))
  {
    match choice
    case Keep =>
    case Discard =>
    case Retry => AttemptWrites(s, r);
    case Reviewed => RevisedWrites(s, r, first, second);
  }

  lemma ContinuedWrites(s: Queue, r: RunId, first: Id, second: Id)
    requires r in s.runs && s.runs[r].phase.Chosen?
    ensures Wrote(s, Continued(s, r, first, second), StepWrite(s, Resumed(r, first, second)))
  {
    if Fenced(s, r) {
      FreedChoiceWrites(s, r, s.runs[r].phase.choice, first, second);
    }
  }

  lemma FreedChoiceWrites(s: Queue, r: RunId, choice: Choice, first: Id, second: Id)
    requires r in s.runs
    ensures Wrote(s, AfterChoice(Freed(s, r), r, choice, first, second),
                  ResumedWrite(s, s.runs[r], choice, first, second))
  {
    var freed := Freed(s, r);
    AfterChoiceWrites(freed, r, choice, first, second);
    assert ResumedWrite(freed, freed.runs[r], choice, first, second) ==
           ResumedWrite(s, s.runs[r], choice, first, second);
    WroteFrom(s, freed, AfterChoice(freed, r, choice, first, second),
              ResumedWrite(s, s.runs[r], choice, first, second));
  }

  lemma WroteFrom(s: Queue, m: Queue, n: Queue, w: Write)
    requires Untouched(s, m) && Wrote(m, n, w)
    ensures Wrote(s, n, w)
  {
  }

  lemma ReviewedExecuteWrites(s: Queue, r: RunId, edit: Edit, first: Id, second: Id)
    ensures Wrote(s, Execute(ReviewedState(s, edit, first, second), r, ReviewedEdit(edit, first, second)),
                  Executed(s, ReviewedEdit(edit, first, second)))
  {
    ExecuteWrites(ReviewedState(s, edit, first, second), r, ReviewedEdit(edit, first, second));
  }

  lemma IssuedExecuteWrites(s: Queue, r: RunId, op: Id, edit: Edit)
    ensures Wrote(s, Execute(s.(issued := s.issued[op := Identity(edit.id, edit.content)]), r, edit), Executed(s, edit))
  {
    ExecuteWrites(s.(issued := s.issued[op := Identity(edit.id, edit.content)]), r, edit);
  }

  lemma SentWrites(s: Queue, r: RunId, id: Id, op: Id, content: Content)
    ensures Wrote(Loaded(s), Sent(s, r, id, op, content), StepWrite(Loaded(s), Send(r, id, op, content)))
  {
    var loaded := Loaded(s);
    match Match(ListOf(loaded, s.scope), content)
    case Some(pending) => ExecuteWrites(loaded, r, pending);
    case None => IssuedExecuteWrites(loaded, r, op, Edit(id, content, op, "", None, None));
  }

  lemma ChoiceWrites(s: Queue, edit: Edit, choice: Choice, r: RunId, first: Id, second: Id)
    ensures var e := Choose(edit, choice, r, first, second);
            Wrote(Base(s, e), ChoiceMade(s, edit, choice, r, first, second), StepWrite(Base(s, e), e))
  {
    if edit.id in s.waiting {
      WaiterWrites(s, s.waiting[edit.id], choice);
    } else if choice.Keep? || choice.Discard? {
      SettledWrites(s, edit, choice, r, first, second);
    } else {
      StartedWrites(s, edit, choice, r, first, second);
    }
  }

  lemma SettledWrites(s: Queue, edit: Edit, choice: Choice, r: RunId, first: Id, second: Id)
    requires edit.id !in s.waiting && (choice.Keep? || choice.Discard?)
    ensures Wrote(Loaded(s), ChoiceMade(s, edit, choice, r, first, second),
                  ChoiceWrite(Loaded(s), edit, choice, first, second))
  {
    if choice.Keep? {
      KeptWrites(s);
    } else {
      DiscardedWrites(s, edit.id);
    }
  }

  lemma StartedWrites(s: Queue, edit: Edit, choice: Choice, r: RunId, first: Id, second: Id)
    requires edit.id !in s.waiting && (choice.Retry? || choice.Reviewed?)
    ensures Wrote(s, ChoiceMade(s, edit, choice, r, first, second), ChoiceWrite(s, edit, choice, first, second))
  {
    if choice.Retry? {
      ExecuteWrites(s, r, edit);
    } else {
      ReviewedExecuteWrites(s, r, edit, first, second);
    }
  }

  lemma WaiterWrites(s: Queue, waiter: RunId, choice: Choice)
    ensures Untouched(s, if InRun(s, waiter, Asking) then InPhase(s, waiter, Chosen(choice)) else s)
  {
  }

  lemma KeptWrites(s: Queue)
    ensures Wrote(Loaded(s), Publish(Loaded(s).(shown := None), s.scope, ListOf(Loaded(s), s.scope)), Rewrite(s.scope))
  {
  }

  lemma DiscardedWrites(s: Queue, id: Id)
    ensures Wrote(Loaded(s), Withdraw(Loaded(s).(shown := None), s.scope, id), Drop(s.scope, id))
  {
  }

  /** A step in which the page forgets its memory or its storage changes its mood. */
  predicate Unsettling(e: Event)
  {
    e.Around? && (e.ambient.Reloaded? || e.ambient.Surroundings?)
  }

  /** Every other step reads the active list first or not at all, and then makes exactly
      this one write. */
  lemma StepWrites(s: State, e: Event)
    requires Enabled(s, e) && !Unsettling(e)
    ensures Wrote(Base(s.queue, e), After(s, e).queue, StepWrite(Base(s.queue, e), e))
  {
    var q := s.queue;
    match e
    case Send(r, id, op, content) => SentWrites(q, r, id, op, content);
    case Choose(edit, choice, r, first, second) => ChoiceWrites(q, edit, choice, r, first, second);
    case Answered(r, answer) => AnswerWrites(q, r, answer);
    case Resumed(r, first, second) => ContinuedWrites(q, r, first, second);
    case ListRead =>
    case Around(a) => AmbientWrites(q, a);
    case Delivered(_, _) =>
  }

  lemma AmbientWrites(s: Queue, a: Ambient)
    requires AmbientEnabled(s, a) && !a.Reloaded? && !a.Surroundings?
    ensures Untouched(s, AfterAmbient(s, a))
  {
    match a
    case Reaped(r) =>
    case ConnectionAdvanced(scope) =>
    case LibraryAdvanced(scope) =>
    case Opened(id) =>
    case Reloaded(scope) =>
    case Surroundings(listening, blocked, storageWorks) =>
  }

  // ----- What writing keeps ---------------------------------------------------

  lemma PublishUnique(s: Queue, n: Queue, key: Scope, items: seq<Edit>)
    requires Unique(s) && UniqueIds(items) && Publishes(s, n, key, items)
    ensures Unique(n)
  {
  }

  lemma WriteUnique(s: Queue, n: Queue, w: Write)
    requires Unique(s) && Wrote(s, n, w)
    ensures Unique(n)
  {
    match w
    case Nothing =>
    case Rewrite(key) => PublishUnique(s, n, key, ListOf(s, key));
    case Put(key, edit) =>
      AppendUnique(ListOf(s, key), edit);
      PublishUnique(s, n, key, Dropped(ListOf(s, key), edit.id) + [edit]);
    case Drop(key, id) =>
      DroppedUnique(ListOf(s, key), id);
      PublishUnique(s, n, key, Dropped(ListOf(s, key), id));
  }

  lemma PublishSynced(s: Queue, n: Queue, key: Scope, items: seq<Edit>)
    requires Synced(s) && s.storageWorks && Publishes(s, n, key, items)
    ensures Synced(n)
  {
    forall k | k in n.retained
      ensures n.retained[k] == Stored(n, k) || n.retained[k] == RecoveredList(Stored(n, k), k)
    {
      assert k != key ==> Stored(n, k) == Stored(s, k);
    }
  }

  lemma WriteSynced(s: Queue, n: Queue, w: Write)
    requires Synced(s) && s.storageWorks && Wrote(s, n, w)
    ensures Synced(n)
  {
    match w
    case Nothing => SameListsSynced(s, n);
    case Rewrite(key) => PublishSynced(s, n, key, ListOf(s, key));
    case Put(key, edit) => PublishSynced(s, n, key, Dropped(ListOf(s, key), edit.id) + [edit]);
    case Drop(key, id) => PublishSynced(s, n, key, Dropped(ListOf(s, key), id));
  }

  lemma SameListsSynced(s: Queue, n: Queue)
    requires Synced(s) && n.stored == s.stored && (n.retained == s.retained || n.retained == map[])
    ensures Synced(n)
  {
    forall k | k in n.retained
      ensures n.retained[k] == Stored(n, k) || n.retained[k] == RecoveredList(Stored(n, k), k)
    {
      assert Stored(n, k) == Stored(s, k);
    }
  }

  /** Reading changes no list an owner sees. */
  lemma LoadedKeepsLists(s: Queue)
    ensures var n := Loaded(s);
            && n.stored == s.stored && n.storageWorks == s.storageWorks
            && (forall key :: Visible(n, key) == Visible(s, key))
            && (forall key :: key in n.retained <==> key in s.retained || key == s.scope)
            && (forall key :: key in s.retained ==> n.retained[key] == s.retained[key])
            && (Unique(s) ==> Unique(n)) && (Synced(s) ==> Synced(n))
  {
    var n := Loaded(s);
    if s.scope !in s.retained {
      var list := RecoveredList(Stored(s, s.scope), s.scope);
      assert n.retained == s.retained[s.scope := list];
      forall key
        ensures Visible(n, key) == Visible(s, key) && Stored(n, key) == Stored(s, key)
      {
      }
      if Unique(s) {
        RecoveredUnique(Stored(s, s.scope), s.scope);
      }
    }
  }

  lemma StepKeepsUnique(s: State, e: Event)
    requires Enabled(s, e) && Unique(s.queue)
    ensures Unique(After(s, e).queue)
  {
    if !Unsettling(e) {
      LoadedKeepsLists(s.queue);
      StepWrites(s, e);
      WriteUnique(Base(s.queue, e), After(s, e).queue, StepWrite(Base(s.queue, e), e));
    }
  }

  lemma UnsettledLists(s: Queue, a: Ambient)
    requires a.Reloaded? || a.Surroundings?
    ensures AfterAmbient(s, a).stored == s.stored
    ensures AfterAmbient(s, a).retained == if a.Reloaded? then map[] else s.retained
  {
  }

  lemma StepKeepsSynced(s: State, e: Event)
    requires Enabled(s, e) && Synced(s.queue) && s.queue.storageWorks
    ensures Synced(After(s, e).queue)
  {
    if Unsettling(e) {
      UnsettledLists(s.queue, e.ambient);
      SameListsSynced(s.queue, After(s, e).queue);
    } else {
      LoadedKeepsLists(s.queue);
      StepWrites(s, e);
      WriteSynced(Base(s.queue, e), After(s, e).queue, StepWrite(Base(s.queue, e), e));
    }
  }

  /** In every history, every list names each edit at most once. */
  lemma {:induction false} IdsStayUnique(states: seq<State>, events: seq<Event>, i: nat)
    requires History(states, events) && states[0] == Initial(states[0].queue.scope) && i < |states|
    ensures Unique(states[i].queue)
  {
    if i > 0 {
      IdsStayUnique(states, events, i - 1);
      assert Enabled(states[i - 1], events[i - 1]);
      StepKeepsUnique(states[i - 1], events[i - 1]);
    }
  }

  // ----- Reloading ------------------------------------------------------------

  lemma {:induction false} StorageFollows(states: seq<State>, events: seq<Event>, i: nat)
    requires History(states, events) && states[0] == Initial(states[0].queue.scope) && i < |states|
    requires forall k :: 0 <= k < i ==> states[k].queue.storageWorks
    ensures Synced(states[i].queue)
  {
    if i > 0 {
      StorageFollows(states, events, i - 1);
      assert Enabled(states[i - 1], events[i - 1]);
      StepKeepsSynced(states[i - 1], events[i - 1]);
    }
  }

  /** While storage works, a page that reloads shows for every scope exactly the list it showed
      before, in order, without the edits that do not pass the check. */
  lemma ReloadReadsBackValidEdits(states: seq<State>, events: seq<Event>, i: nat, scope: Scope, key: Scope)
    requires History(states, events) && states[0] == Initial(states[0].queue.scope) && i < |states|
    requires forall k :: 0 <= k < i ==> states[k].queue.storageWorks
    ensures Visible(PageReload(states[i].queue, scope), key) == RecoveredList(Visible(states[i].queue, key), key)
  {
    StorageFollows(states, events, i);
    RecoveredTwice(Stored(states[i].queue, key), key);
  }

  /** The same edit as storage brings it back: its request, identity and conflict, no stale
      review, and a message to show. */
  predicate ReadAgain(edit: Edit, read: Edit)
  {
    && read.id == edit.id && read.content == edit.content && read.operation == edit.operation
    && read.conflict == edit.conflict && read.recovery == None
    && read.message != "" && (edit.message != "" ==> read.message == edit.message)
  }

  lemma RecoveredIsReadAgain(edit: Edit)
    ensures ReadAgain(edit, Recovered(edit))
  {
  }

  /** Read back, an edit keeps its id, its request and its identity; it survives exactly
      when it passes the check. */
  lemma {:induction false} SurvivesIffValid(items: seq<Edit>, scope: Scope, edit: Edit)
    requires UniqueIds(items) && edit in items
    ensures Named(RecoveredList(items, scope), edit.id) <==> ValidPending(edit, scope)
    ensures ValidPending(edit, scope) ==>
              Recovered(edit) in RecoveredList(items, scope) && ReadAgain(edit, Recovered(edit))
  {
    RecoveredIsReadAgain(edit);
    var front, last := Init(items), Last(items);
    var rest := RecoveredList(front, scope);
    assert items == front + [last];
    RecoveredUnique(front, scope);
    if edit == last {
      NotNamedEarlier(items);
      LastSurvives(items, scope);
    } else {
      SurvivesIffValid(front, scope, edit);
      var k :| 0 <= k < |front| && front[k] == edit;
      assert items[k].id != items[|items| - 1].id;
      NamedAppend(rest, Recovered(last), edit.id);
    }
  }

  lemma LastSurvives(items: seq<Edit>, scope: Scope)
    requires items != [] && !Named(RecoveredList(Init(items), scope), Last(items).id)
    ensures Named(RecoveredList(items, scope), Last(items).id) <==> ValidPending(Last(items), scope)
    ensures ValidPending(Last(items), scope) ==> Recovered(Last(items)) in RecoveredList(items, scope)
  {
    var rest := RecoveredList(Init(items), scope);
    NamedAppend(rest, Recovered(Last(items)), Last(items).id);
    if ValidPending(Last(items), scope) {
      assert RecoveredList(items, scope)[|rest|] == Recovered(Last(items));
    }
  }
}
