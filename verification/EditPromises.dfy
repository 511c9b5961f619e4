/** What the owner is promised: what leaves a list, what can come back, which scope it belongs
    to, and what "saved" means. */
module EditPromises {
  import opened Core
  import opened EditBasis
  import opened EditQueue
  import opened EditIdentity
  import opened EditServer
  import opened EditLists
  import opened EditRuns
  import opened EditKeeping

  // ----- Runs stay listed -----------------------------------------------------

  lemma UnsettledListed(s: Queue, a: Ambient)
    requires Listed(s) && (a.Reloaded? || a.Surroundings?)
    ensures Listed(AfterAmbient(s, a))
  {
  }

  lemma StepKeepsListed(s: State, e: Event)
    requires Tidy(s.queue) && Listed(s.queue) && Enabled(s, e)
    ensures Listed(After(s, e).queue)
  {
    if Unsettling(e) {
      UnsettledListed(s.queue, e.ambient);
    } else {
      SettledListed(s, e);
    }
  }

  lemma SettledListed(s: State, e: Event)
    requires Tidy(s.queue) && Listed(s.queue) && Enabled(s, e) && !Unsettling(e)
    ensures Listed(After(s, e).queue)
  {
    var b := Base(s.queue, e);
    StepKeepsTidy(s, e);
    StepWrites(s, e);
    StepRuns(s, e);
    BaseKeepsRead(s.queue, e);
    WriteListed(s.queue, b, After(s, e).queue, StepWrite(b, e), Actor(e));
  }

  lemma BaseKeepsRead(s: Queue, e: Event)
    ensures forall key :: key in s.retained ==>
            key in Base(s, e).retained && Base(s, e).retained[key] == s.retained[key]
  {
    LoadedKeepsLists(s);
  }

  lemma {:induction false} HistoryKeepsListed(states: seq<State>, events: seq<Event>, i: nat)
    requires History(states, events) && Tidy(states[0].queue) && Listed(states[0].queue) && i < |states|
    ensures Tidy(states[i].queue) && Listed(states[i].queue)
  {
    if i > 0 {
      HistoryKeepsListed(states, events, i - 1);
      assert Enabled(states[i - 1], events[i - 1]);
      StepKeepsTidy(states[i - 1], events[i - 1]);
      StepKeepsListed(states[i - 1], events[i - 1]);
    }
  }

  // ----- What a write does to what is shown -----------------------------------

  lemma ChoiceWriteKey(s: Queue, edit: Edit, choice: Choice, first: Id, second: Id)
    ensures var w := ChoiceWrite(s, edit, choice, first, second);
            && (!w.Nothing? ==> w.key == s.scope && edit.id !in s.waiting)
            && (w.Put? <==> edit.id !in s.waiting && edit.id !in s.inFlight && (choice.Retry? || choice.Reviewed?))
            && (w.Put? ==> w.edit.id == edit.id)
            && (w.Drop? <==> edit.id !in s.waiting && choice.Discard?) && (w.Drop? ==> w.id == edit.id)
            && (w.Rewrite? ==> choice.Keep?)
  {
    assert ReviewedEdit(edit, first, second).id == edit.id;
  }

  lemma SentWriteKey(s: Queue, r: RunId, id: Id, op: Id, content: Content)
    ensures var w := StepWrite(s, Send(r, id, op, content));
            !w.Nothing? ==> w.Put? && w.key == s.scope && (w.edit.id == id || Named(ListOf(s, s.scope), w.edit.id))
  {
    MatchedIsListed(ListOf(s, s.scope), content);
    var pending := Match(ListOf(s, s.scope), content);
    assert pending.Some? ==> Named(ListOf(s, s.scope), pending.value.id);
  }

  lemma AnswerWriteKey(run: Run, answer: Answer)
    ensures !AnswerWrite(run, answer).Nothing? ==> AnswerWrite(run, answer).key == run.key
    ensures AnswerWrite(run, answer).Put? ==> AnswerWrite(run, answer).edit.id == run.edit.id
    ensures AnswerWrite(run, answer).Drop? <==> answer == OkBody(true)
    ensures AnswerWrite(run, answer).Drop? ==> AnswerWrite(run, answer).id == run.edit.id
  {
  }

  lemma ResumedWriteKey(s: Queue, run: Run, choice: Choice, first: Id, second: Id)
    ensures var w := ResumedWrite(s, run, choice, first, second);
            && !w.Nothing? && w.key == run.key
            && (w.Put? ==> w.edit.id == run.edit.id)
            && (w.Drop? <==> choice.Discard?) && (w.Drop? ==> w.id == run.edit.id)
  {
  }

  /** An owner's retry or review starts a run in a scope whose list the page has not read. */
  predicate StartsUnread(s: Queue, e: Event)
  {
    && e.Choose? && (e.choice.Retry? || e.choice.Reviewed?)
    && e.edit.id !in s.waiting && e.edit.id !in s.inFlight && s.scope !in s.retained
  }

  /** An accepted response removes the edit, or its owner discards it. */
  predicate Leaves(s: Queue, e: Event, key: Scope, id: Id)
    requires e.Answered? || e.Resumed? ==> e.run in s.runs
  {
    match e
    case Choose(edit, choice, _, _, _) => edit.id !in s.waiting && choice.Discard? && key == s.scope && id == edit.id
    case Answered(r, answer) => Fenced(s, r) && answer == OkBody(true) && key == s.runs[r].key &&
        id == s.runs[r].edit.id
    case Resumed(r, _, _) =>
      Fenced(s, r) && s.runs[r].phase == Chosen(Discard) && key == s.runs[r].key && id == s.runs[r].edit.id
    case Send(_, _, _, _) => false
    case ListRead => false
    case Around(_) => false
    case Delivered(_, _) => false
  }

  /** What a step writes is decided by these few facts: its write goes to the active scope; to
      a list the page has read, except the first write of a run that an owner's retry or review
      starts; and it drops an edit exactly when an accept or a discard does. */
  ghost predicate WriteFacts(s: Queue, e: Event)
    requires e.Answered? || e.Resumed? ==> e.run in s.runs
    requires e.Resumed? ==> s.runs[e.run].phase.Chosen?
    requires (e.Answered? || e.Resumed?) ==> e.run in Base(s, e).runs
  {
    var b := Base(s, e);
    var w := StepWrite(b, e);
    && (!w.Nothing? ==> w.key == s.scope)
    && (!w.Nothing? && w.key !in b.retained ==> w.Put? && StartsUnread(s, e))
    && (StartsUnread(s, e) ==> w.Put? && w.edit.id == e.edit.id && b == s)
    && (forall key, id :: w == Drop(key, id) <==> Leaves(s, e, key, id))
  }

  lemma SentFacts(s: Queue, r: RunId, id: Id, op: Id, content: Content)
    ensures WriteFacts(s, Send(r, id, op, content))
  {
    LoadedKeepsLists(s);
    SentWriteKey(Loaded(s), r, id, op, content);
  }

  lemma ChoiceFacts(s: Queue, edit: Edit, choice: Choice, r: RunId, first: Id, second: Id)
    ensures WriteFacts(s, Choose(edit, choice, r, first, second))
  {
    var e := Choose(edit, choice, r, first, second);
    LoadedFields(s);
    if ReadsFirst(s, e) {
      ChoiceWriteKey(Loaded(s), edit, choice, first, second);
    } else {
      ChoiceWriteKey(s, edit, choice, first, second);
    }
  }

  lemma LoadedFields(s: Queue)
    ensures var n := Loaded(s);
            n.waiting == s.waiting && n.inFlight == s.inFlight && n.scope == s.scope && n.runs == s.runs &&
                n.scope in n.retained
  {
  }

  lemma AnswerFacts(s: Queue, r: RunId, answer: Answer)
    requires Tidy(s) && Listed(s) && r in s.runs
    ensures WriteFacts(s, Answered(r, answer))
  {
    AnswerWriteKey(s.runs[r], answer);
  }

  lemma ResumedFacts(s: Queue, r: RunId, first: Id, second: Id)
    requires Tidy(s) && Listed(s) && r in s.runs && s.runs[r].phase.Chosen?
    ensures WriteFacts(s, Resumed(r, first, second))
  {
    ResumedWriteKey(s, s.runs[r], s.runs[r].phase.choice, first, second);
  }

  lemma StepFacts(s: State, e: Event)
    requires Tidy(s.queue) && Listed(s.queue) && Enabled(s, e) && !Unsettling(e)
    ensures WriteFacts(s.queue, e)
  {
    match e
    case Send(r, id, op, content) => SentFacts(s.queue, r, id, op, content);
    case Choose(edit, choice, r, first, second) => ChoiceFacts(s.queue, edit, choice, r, first, second);
    case Answered(r, answer) => AnswerFacts(s.queue, r, answer);
    case Resumed(r, first, second) => ResumedFacts(s.queue, r, first, second);
    case ListRead => LoadedKeepsLists(s.queue);
    case Around(_) =>
    case Delivered(_, _) =>
  }

  /** The list under `key` after a write, by name. */
  lemma WrittenNames(b: Queue, n: Queue, w: Write, key: Scope, id: Id)
    requires Wrote(b, n, w)
    ensures w.Nothing? || w.key != key ==> Visible(n, key) == Visible(b, key) && Stored(n, key) == Stored(b, key)
    ensures w.Rewrite? && w.key == key ==> Visible(n, key) == ListOf(b, key)
    ensures w.Put? && w.key == key ==> (Named(Visible(n, key), id) <==> Named(ListOf(b, key), id) || id == w.edit.id)
    ensures w.Drop? && w.key == key ==> (Named(Visible(n, key), id) <==> Named(ListOf(b, key), id) && id != w.id)
  {
    match w
    case Nothing =>
    case Rewrite(k) =>
    case Put(k, edit) =>
      NamedDropped(ListOf(b, k), edit.id, id);
      NamedAppend(Dropped(ListOf(b, k), edit.id), edit, id);
    case Drop(k, gone) => NamedDropped(ListOf(b, k), gone, id);
  }

  /** The page before a step, once it has read what the step reads first. */
  ghost predicate Reads(s: Queue, b: Queue)
  {
    && b.stored == s.stored && (forall key :: Visible(b, key) == Visible(s, key))
    && (forall key :: key in s.retained ==> key in b.retained && b.retained[key] == s.retained[key])
  }

  /** Only a put can write a list that has not been read. */
  ghost predicate ReadBefore(b: Queue, w: Write)
  {
    w.Drop? || w.Rewrite? ==> w.key in b.retained
  }

  lemma StepParts(s: State, e: Event)
    requires Tidy(s.queue) && Listed(s.queue) && Enabled(s, e) && !Unsettling(e)
    ensures var b := Base(s.queue, e); var w := StepWrite(b, e);
            && Reads(s.queue, b) && Wrote(b, After(s, e).queue, w) && ReadBefore(b, w)
            && (!w.Nothing? ==> w.key == s.queue.scope)
  {
    LoadedKeepsLists(s.queue);
    StepWrites(s, e);
    StepFacts(s, e);
  }

  /** An edit is dropped from view by a drop, or by a put into a list that was not read. */
  lemma LostFromView(s: Queue, b: Queue, n: Queue, w: Write, key: Scope, id: Id)
    requires Reads(s, b) && Wrote(b, n, w) && ReadBefore(b, w) && Named(Visible(s, key), id)
    ensures !Named(Visible(n, key), id) <==>
              w == Drop(key, id) || (w.Put? && w.key == key && key !in b.retained && id != w.edit.id)
  {
    WrittenNames(b, n, w, key, id);
    assert key in b.retained ==> ListOf(b, key) == Visible(b, key);
  }

  lemma NewInView(s: Queue, b: Queue, n: Queue, w: Write, key: Scope, id: Id)
    requires Reads(s, b) && Wrote(b, n, w) && ReadBefore(b, w)
    requires Named(Visible(n, key), id) && !Named(Visible(s, key), id)
    ensures w.Put? && w.edit.id == id && w.key == key
  {
    WrittenNames(b, n, w, key, id);
    assert key in b.retained ==> ListOf(b, key) == Visible(b, key);
  }

  lemma UntouchedElsewhere(s: Queue, b: Queue, n: Queue, w: Write, key: Scope)
    requires Reads(s, b) && Wrote(b, n, w) && (w.Nothing? || w.key != key)
    ensures Visible(n, key) == Visible(s, key) && Stored(n, key) == Stored(s, key)
  {
    WrittenNames(b, n, w, key, Id(""));
  }

  /** No edit is lost: within a page's life an edit that its owner can see leaves its list if
      and only if an accepted response removes it, its owner discards it, or a retry or
      review of another edit starts a run in this scope before the page has read its list. */
  lemma LostIff(s: State, e: Event, key: Scope, id: Id)
    requires Tidy(s.queue) && Listed(s.queue) && Enabled(s, e) && !Unsettling(e)
    requires Named(Visible(s.queue, key), id)
    ensures !Named(Visible(After(s, e).queue, key), id) <==>
              Leaves(s.queue, e, key, id) || (StartsUnread(s.queue, e) && key == s.queue.scope && id != e.edit.id)
  {
    var b := Base(s.queue, e);
    StepParts(s, e);
    StepFacts(s, e);
    LostFromView(s.queue, b, After(s, e).queue, StepWrite(b, e), key, id);
  }

  /** And nothing appears but the edit a step writes, in the scope that is active. */
  lemma OnlyWrittenAppears(s: State, e: Event, key: Scope, id: Id)
    requires Tidy(s.queue) && Listed(s.queue) && Enabled(s, e) && !Unsettling(e)
    requires Named(Visible(After(s, e).queue, key), id) && !Named(Visible(s.queue, key), id)
    ensures var w := StepWrite(Base(s.queue, e), e); w.Put? && w.edit.id == id && w.key == key == s.queue.scope
  {
    var b := Base(s.queue, e);
    StepParts(s, e);
    NewInView(s.queue, b, After(s, e).queue, StepWrite(b, e), key, id);
  }

  /** A step touches no scope's list but the active one's, in memory or in storage. */
  lemma OtherScopesUntouched(s: State, e: Event, key: Scope)
    requires Tidy(s.queue) && Listed(s.queue) && Enabled(s, e) && key != s.queue.scope
    ensures Stored(After(s, e).queue, key) == Stored(s.queue, key)
    ensures !(e.Around? && e.ambient.Reloaded?) ==> Visible(After(s, e).queue, key) == Visible(s.queue, key)
  {
    if Unsettling(e) {
      UnsettledLists(s.queue, e.ambient);
    } else {
      var b := Base(s.queue, e);
      StepParts(s, e);
      UntouchedElsewhere(s.queue, b, After(s, e).queue, StepWrite(b, e), key);
    }
  }

  // ----- Saved means applied --------------------------------------------------

  /** The entry that an accepted response removes from the list, the server applied: with that
      entry's operation and exactly that entry's request. */
  lemma SavedEntryWasApplied(states: seq<State>, events: seq<Event>, i: nat, entry: Edit)
    requires History(states, events) && states[0] == Initial(states[0].queue.scope) && i < |events|
    requires events[i].Answered? && events[i].answer == OkBody(true)
    requires var q := states[i].queue;
             events[i].run in q.runs && entry in Visible(q, q.runs[events[i].run].key) &&
                 entry.id == q.runs[events[i].run].edit.id
    ensures exists k :: 0 <= k < |states[i].server.applied| &&
              states[i].server.applied[k].edit == entry.id &&
              states[i].server.applied[k].operation == entry.operation &&
              states[i].server.applied[k].content == entry.content
  {
    HistoryKeepsListed(states, events, i);
    AcceptedWasApplied(states, events, i);
  }
}
