/** Lists of different servers and libraries stay apart. */
module EditScopes {
  import opened Core
  import opened EditBasis
  import opened EditQueue
  import opened EditIdentity
  import opened EditServer
  import opened EditLists
  import opened EditRuns
  import opened EditKeeping
  import opened EditPromises
  import opened EditDiscards

  ghost predicate HasRun(s: Queue, key: Scope, id: Id)
  {
    exists r :: r in s.runs && s.runs[r].edit.id == id && s.runs[r].key == key
  }

  /** The edit has something to do with this scope: it is shown or stored there, or a run of
      it writes there. */
  ghost predicate Lives(s: Queue, key: Scope, id: Id)
  {
    Named(Visible(s, key), id) || Named(Stored(s, key), id) || HasRun(s, key, id)
  }

  /** No edit lives in two scopes. */
  ghost predicate Apart(s: Queue)
  {
    forall id, a, b :: Lives(s, a, id) && Lives(s, b, id) ==> a == b
  }

  /** Retries and reviews name an edit of the list that is on the screen. */
  ghost predicate ChosenFromList(s: Queue, e: Event)
  {
    e.Choose? && (e.choice.Retry? || e.choice.Reviewed?) ==> Named(Visible(s, s.scope), e.edit.id)
  }

  lemma LivingIsKnown(s: Queue, key: Scope, id: Id)
    requires EditsGood(s) && Lives(s, key, id)
    ensures Known(s.issued, id)
  {
    if HasRun(s, key, id) {
      var r :| r in s.runs && s.runs[r].edit.id == id && s.runs[r].key == key;
      assert Good(s.issued, s.runs[r].edit);
      assert s.issued[s.runs[r].edit.operation].edit == id;
    } else if Named(Stored(s, key), id) {
      StoredIsKnown(s, key, id);
    } else if key in s.retained {
      var e :| e in s.retained[key] && e.id == id;
      assert Good(s.issued, e);
      assert s.issued[e.operation].edit == id;
    } else {
      RecoveredNames(Stored(s, key), key, id);
      StoredIsKnown(s, key, id);
    }
  }

  lemma StoredIsKnown(s: Queue, key: Scope, id: Id)
    requires EditsGood(s) && Named(Stored(s, key), id)
    ensures Known(s.issued, id)
  {
    var e :| e in Stored(s, key) && e.id == id;
    assert key in s.stored && e in s.stored[key];
    assert Good(s.issued, e);
    assert s.issued[e.operation].edit == id;
  }

  /** What a step writes, it writes where the edit already lives, or it is a new edit. */
  lemma WriteIsAtHome(s: State, e: Event)
    requires Tidy(s.queue) && Listed(s.queue) && EditsGood(s.queue) && Enabled(s, e) && !Unsettling(e) &&
             ChosenFromList(s.queue, e)
    ensures var w := StepWrite(Base(s.queue, e), e);
            w.Put? ==> Lives(s.queue, w.key, w.edit.id) || forall key :: !Lives(s.queue, key, w.edit.id)
  {
    match e
    case Send(r, id, op, content) => SentAtHome(s.queue, r, id, op, content);
    case Choose(edit, choice, r, first, second) => ChosenAtHome(s.queue, edit, choice, r, first, second);
    case Answered(r, answer) => AnsweredAtHome(s.queue, r, answer);
    case Resumed(r, first, second) => ResumedAtHome(s.queue, r, first, second);
    case ListRead =>
    case Around(_) =>
    case Delivered(_, _) =>
  }

  lemma ChosenAtHome(s: Queue, edit: Edit, choice: Choice, r: RunId, first: Id, second: Id)
    requires ChosenFromList(s, Choose(edit, choice, r, first, second))
    ensures var e := Choose(edit, choice, r, first, second);
            var w := StepWrite(Base(s, e), e); w.Put? ==> Lives(s, w.key, w.edit.id)
  {
    LoadedFields(s);
    ChoiceWriteKey(Base(s, Choose(edit, choice, r, first, second)), edit, choice, first, second);
  }

  lemma AnsweredAtHome(s: Queue, r: RunId, answer: Answer)
    requires r in s.runs
    ensures var w := StepWrite(s, Answered(r, answer)); w.Put? ==> Lives(s, w.key, w.edit.id)
  {
    AnswerWriteKey(s.runs[r], answer);
    assert HasRun(s, s.runs[r].key, s.runs[r].edit.id);
  }

  lemma ResumedAtHome(s: Queue, r: RunId, first: Id, second: Id)
    requires r in s.runs && s.runs[r].phase.Chosen?
    ensures var w := StepWrite(s, Resumed(r, first, second)); w.Put? ==> Lives(s, w.key, w.edit.id)
  {
    ResumedWriteKey(s, s.runs[r], s.runs[r].phase.choice, first, second);
    assert HasRun(s, s.runs[r].key, s.runs[r].edit.id);
  }

  lemma SentAtHome(s: Queue, r: RunId, id: Id, op: Id, content: Content)
    requires EditsGood(s) && FreshEdit(s, id)
    ensures var w := StepWrite(Loaded(s), Send(r, id, op, content));
            w.Put? ==> Lives(s, w.key, w.edit.id) || forall key :: !Lives(s, key, w.edit.id)
  {
    LoadedKeepsLists(s);
    LoadedFields(s);
    SentWriteKey(Loaded(s), r, id, op, content);
    assert ListOf(Loaded(s), s.scope) == Visible(s, s.scope);
    forall key
      ensures !Lives(s, key, id)
    {
      if Lives(s, key, id) {
        LivingIsKnown(s, key, id);
      }
    }
  }

  /** What lives somewhere after a write lived there before, or was just written there. */
  lemma LivesAfterWrite(s: Queue, b: Queue, n: Queue, w: Write, actor: Option<RunId>, key: Scope, id: Id)
    requires Reads(s, b) && Wrote(b, n, w) && ReadBefore(b, w) && RunsAfter(s, n, w, actor) && Lives(n, key, id)
    ensures Lives(s, key, id) || (w.Put? && w.key == key && w.edit.id == id)
  {
    if HasRun(n, key, id) {
      var r :| r in n.runs && n.runs[r].edit.id == id && n.runs[r].key == key;
      assert RunAfter(s, n, w, actor, r);
    } else {
      StoredAfter(b, n, w, key);
      if Named(Visible(n, key), id) && !Named(Visible(s, key), id) {
        NewInView(s, b, n, w, key, id);
      }
    }
  }

  /** Storage holds what it held, or what is shown. */
  lemma StoredAfter(b: Queue, n: Queue, w: Write, key: Scope)
    requires Wrote(b, n, w)
    ensures Stored(n, key) == Stored(b, key) || Stored(n, key) == Visible(n, key)
  {
  }

  lemma UnsettledLives(s: Queue, a: Ambient, key: Scope, id: Id)
    requires (a.Reloaded? || a.Surroundings?) && Lives(AfterAmbient(s, a), key, id)
    ensures Lives(s, key, id)
  {
    var n := AfterAmbient(s, a);
    assert Stored(n, key) == Stored(s, key);
    if a.Reloaded? {
      assert !HasRun(n, key, id);
      if Named(Visible(n, key), id) {
        RecoveredNames(Stored(s, key), key, id);
      }
    }
  }

  lemma StepKeepsApart(s: State, e: Event)
    requires Tidy(s.queue) && Listed(s.queue) && EditsGood(s.queue) && Enabled(s, e) && ChosenFromList(s.queue, e)
    requires Apart(s.queue)
    ensures Apart(After(s, e).queue)
  {
    if Unsettling(e) {
      UnsettledApart(s.queue, e.ambient);
    } else {
      SettledApart(s, e);
    }
  }

  lemma UnsettledApart(s: Queue, a: Ambient)
    requires (a.Reloaded? || a.Surroundings?) && Apart(s)
    ensures Apart(AfterAmbient(s, a))
  {
    forall id, here, there | Lives(AfterAmbient(s, a), here, id) && Lives(AfterAmbient(s, a), there, id)
      ensures here == there
    {
      UnsettledLives(s, a, here, id);
      UnsettledLives(s, a, there, id);
    }
  }

  lemma SettledApart(s: State, e: Event)
    requires Tidy(s.queue) && Listed(s.queue) && EditsGood(s.queue) && Enabled(s, e) && !Unsettling(e)
    requires ChosenFromList(s.queue, e) && Apart(s.queue)
    ensures Apart(After(s, e).queue)
  {
    var b := Base(s.queue, e);
    WriteIsAtHome(s, e);
    StepParts(s, e);
    StepRuns(s, e);
    ApartAfterWrite(s.queue, b, After(s, e).queue, StepWrite(b, e), Actor(e));
  }

  lemma ApartAfterWrite(s: Queue, b: Queue, n: Queue, w: Write, actor: Option<RunId>)
    requires Reads(s, b) && Wrote(b, n, w) && ReadBefore(b, w) && RunsAfter(s, n, w, actor) && Apart(s)
    requires w.Put? ==> Lives(s, w.key, w.edit.id) || forall key :: !Lives(s, key, w.edit.id)
    ensures Apart(n)
  {
    forall id, here, there | Lives(n, here, id) && Lives(n, there, id)
      ensures here == there
    {
      LivesAfterWrite(s, b, n, w, actor, here, id);
      LivesAfterWrite(s, b, n, w, actor, there, id);
    }
  }

  /** As long as retries and reviews name edits of the list on the screen, no edit is ever shown
      or stored in two scopes, however often the server and the library change. */
  lemma {:induction false} ScopesStayApart(states: seq<State>, events: seq<Event>, i: nat)
    requires History(states, events) && states[0] == Initial(states[0].queue.scope) && i < |states|
    requires forall k :: 0 <= k < i ==> ChosenFromList(states[k].queue, events[k])
    ensures Apart(states[i].queue)
  {
    if i == 0 {
      InitialApart(states[0].queue.scope);
    } else {
      var k := i - 1;
      ScopesStayApart(states, events, k);
      assert ChosenFromList(states[k].queue, events[k]);
      ApartStep(states, events, k);
    }
  }

  lemma ApartStep(states: seq<State>, events: seq<Event>, i: nat)
    requires History(states, events) && states[0] == Initial(states[0].queue.scope) && i < |events|
    requires ChosenFromList(states[i].queue, events[i]) && Apart(states[i].queue)
    ensures Apart(states[i + 1].queue)
  {
    HistoryKeepsListed(states, events, i);
    InitialGood(states[0].queue.scope);
    HistoryKeepsEditsGood(states, events, i);
    assert Enabled(states[i], events[i]);
    StepKeepsApart(states[i], events[i]);
  }

  lemma InitialApart(scope: Scope)
    ensures Apart(Initial(scope).queue)
  {
    forall key, id
      ensures !Lives(Initial(scope).queue, key, id)
    {
      assert RecoveredList([], key) == [];
    }
  }
}
