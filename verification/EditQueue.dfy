/** The retained metadata edits (`metadataEdits.ts`, `requestScope.ts`) as a machine: each
    step is the code between two awaits, and between steps the network, the server, the
    owner and the page may do anything. */
module EditQueue {
  import opened Core
  import opened EditBasis
  import opened Paths

  // ----- Edits ----------------------------------------------------------------

  datatype Conflict = Conflict(unit: string, revision: nat, reviewable: bool)

  /** Everything a request carries besides its operation identity. */
  datatype Content = Content(
    url: string,
    httpMethod: string,
    body: Option<string>,
    basis: Option<Basis>,
    reviewed: map<string, nat>)

  datatype Edit = Edit(
    id: Id,
    content: Content,
    operation: Id,
    message: string,
    conflict: Option<Conflict>,
    recovery: Option<Basis>)

  datatype Choice = Retry | Reviewed | Keep | Discard

  /** `storageKey()`: the server's durable name and the active library. */
  datatype Scope = Scope(server: string, library: string)

  type RunId = nat

  /** Where a run of `runEdit` is suspended. */
  datatype Phase =
    | Recovering
    | AwaitingResponse
    | ReadingOk
    | ReadingError
    | Asking
    | Chosen(choice: Choice)
    | Ended

  /** A run's locals: the edit, the storage key and the captured scope version. */
  datatype Run = Run(edit: Edit, key: Scope, connection: nat, library: nat, phase: Phase)

  datatype Request = Request(run: RunId, edit: Id, operation: Id, content: Content)

  /** What an operation identity was first given to. */
  datatype Identity = Identity(edit: Id, content: Content)

  /** The page's queue: its module state, its surroundings, and a history of what it did. */
  datatype Queue = Queue(
    // The page's module state
    retained: map<Scope, seq<Edit>>,
    waiting: map<Id, RunId>,
    inFlight: map<Id, RunId>,
    runs: map<RunId, Run>,
    shown: Option<Id>,
    connection: nat,
    library: nat,
    scope: Scope,
    // What surrounds it
    listening: bool,
    blocked: bool,
    storageWorks: bool,
    stored: map<Scope, seq<Edit>>,
    // History: requests sent, identities issued and renewed, edits this page has shown
    requests: seq<Request>,
    issued: map<Id, Identity>,
    renewals: map<Id, nat>,
    published: set<Edit>,
    usedRuns: set<RunId>)

  /** The server: recorded operations, and the requests it applied, in order. */
  datatype Server = Server(recorded: map<Id, Content>, applied: seq<Request>)

  datatype State = State(queue: Queue, server: Server)

  function Initial(scope: Scope): State
  {
    State(Queue(map[], map[], map[], map[], None, 0, 0, scope, false, false, true, map[], [], map[], map[], {}, {}),
          Server(map[], []))
  }

  // ----- The retained list ----------------------------------------------------

  /** `(retained.get(key) ?? []).filter((item) => item.id !== id)` */
  function Dropped(items: seq<Edit>, id: Id): (rest: seq<Edit>)
  {
    if items == [] then []
    else if Last(items).id == id then Dropped(Init(items), id)
    else Dropped(Init(items), id) + [Last(items)]
  }

  function ListOf(s: Queue, key: Scope): seq<Edit>
  {
    if key in s.retained then s.retained[key] else []
  }

  /** `publish`: memory always, storage when it works. */
  function Publish(s: Queue, key: Scope, items: seq<Edit>): Queue
  {
    s.(retained := s.retained[key := items],
       stored := if s.storageWorks then s.stored[key := items] else s.stored,
       published := s.published + Elems(items))
  }

  function Retain(s: Queue, key: Scope, edit: Edit): Queue
  {
    Publish(s, key, Dropped(ListOf(s, key), edit.id) + [edit])
  }

  function Withdraw(s: Queue, key: Scope, id: Id): Queue
  {
    Publish(s, key, Dropped(ListOf(s, key), id))
  }

  predicate ForbiddenChar(c: char)
  {
    c == '?' || c == '#' || c == '%' || c == '\\'
  }

  predicate TokenChar(c: char)
  {
    'a' <= c <= 'z' || 'A' <= c <= 'Z' || '0' <= c <= '9' || c == '_' || c == '-'
  }

  /** The pattern of ids and operation identities. */
  predicate Token(text: string)
  {
    16 <= |text| <= 100 && forall i :: 0 <= i < |text| ==> TokenChar(text[i])
  }

  const FAMILIES := {"bundles", "collections", "tags", "tag-groups", "smart-collections", "grouping"}
  const LOCAL_ACTIONS := {"browse", "opened", "cursor", "progress", "progress-beacon", "delete-with-files"}
  const BUNDLING_ACTIONS := {"add-files", "create-bundle", "empty-bundle"}

  /** The routes of `isMetadataWrite`, on the segments behind the library. */
  predicate MetadataPath(path: seq<string>)
  {
    && path != []
    && !(|path| >= 2 && Last(path) in LOCAL_ACTIONS)
    && (|| path[0] in FAMILIES
        || (|path| == 3 && path[0] == "files" && path[1] != "" && path[2] == "cover-frame")
        || (|path| == 2 && path[0] == "manual-bundling" && path[1] in BUNDLING_ACTIONS)
        || path == ["fast-add"])
  }

  /** `isMetadataWrite`, for an address without a query. */
  predicate MetadataWrite(url: string, httpMethod: string)
  {
    var segments := Split(url);
    && httpMethod in {"POST", "PATCH", "PUT", "DELETE"}
    && |segments| >= 6 && segments[..4] == ["", "api", "v1", "libraries"] && segments[4] != ""
    && MetadataPath(segments[5..])
  }

  const MAX_SAFE_INTEGER: nat := 9007199254740991

  predicate ValidAddress(url: string, httpMethod: string, scope: Scope)
  {
    && "/api/v1/libraries/" + scope.library + "/" <= url
    && (forall i :: 0 <= i < |url| ==> !ForbiddenChar(url[i]))
    && ".." !in Split(url)
    && MetadataWrite(url, httpMethod)
  }

  predicate ValidEntry(id: Id, operation: Id, content: Content, scope: Scope)
  {
    && Token(id.text) && Token(operation.text) && ValidAddress(content.url, content.httpMethod, scope)
    && forall unit :: unit in content.reviewed ==> |unit| <= 256 && content.reviewed[unit] <= MAX_SAFE_INTEGER
  }

  /** `validPending` of a stored entry: recovered text cannot become a request outside the
      active library's metadata. */
  predicate ValidPending(e: Edit, scope: Scope)
  {
    ValidEntry(e.id, e.operation, e.content, scope)
  }

  const INTERRUPTED := "This save was interrupted. Its original request is retained."

  /** A recovered entry: no stale review material, and a message to show. */
  function Recovered(e: Edit): Edit
  {
    e.(recovery := None, message := if e.message == "" then INTERRUPTED else e.message)
  }

  function RecoveredList(items: seq<Edit>, scope: Scope): (list: seq<Edit>)
  {
    if items == [] then []
    else if ValidPending(Last(items), scope) then RecoveredList(Init(items), scope) + [Recovered(Last(items))]
    else RecoveredList(Init(items), scope)
  }

  /** `pendingEdits()`: the current scope's list, read from storage the first time. */
  function Loaded(s: Queue): Queue
  {
    if s.scope in s.retained then s
    else
      var list := RecoveredList(if s.scope in s.stored then s.stored[s.scope] else [], s.scope);
      s.(retained := s.retained[s.scope := list], published := s.published + Elems(list))
  }

  // ----- One attempt ----------------------------------------------------------

  const BLOCKED := "Metadata editing is unavailable on this server."
  const UNCONFIRMED := "The save could not be confirmed. Retry sends the same request safely."
  const NO_OPENING := "This edit has no safe opening version."
  const REVIEW_FIRST := "This retained draft has no safe opening version. Review every proposed field before saving."

  function InPhase(s: Queue, r: RunId, phase: Phase): Queue
  {
    if r in s.runs then s.(runs := s.runs[r := s.runs[r].(phase := phase)]) else s
  }

  function WithEdit(s: Queue, r: RunId, edit: Edit): (next: Queue)
    ensures next.runs.Keys == s.runs.Keys
  {
    if r in s.runs then s.(runs := s.runs[r := s.runs[r].(edit := edit)]) else s
  }

  /** `assertScope()` */
  predicate Fenced(s: Queue, r: RunId)
    requires r in s.runs
  {
    s.runs[r].connection == s.connection && s.runs[r].library == s.library
  }

  /** The top of the loop, after `assertScope()`: retain, then send or look for a basis. */
  function Attempt(s: Queue, r: RunId): Queue
    requires r in s.runs
  {
    var run := s.runs[r];
    var kept := Retain(s, run.key, run.edit);
    if s.blocked then Refuse(kept, r)
    else if run.edit.content.basis.None? || !ValidBasis(run.edit.content.basis.value) then
      InPhase(kept, r, Recovering)
    else Transmit(kept, r)
  }

  /** The end of a failed attempt: record why, show it, and ask if anyone is listening. */
  function Failed(s: Queue, r: RunId, message: string, conflict: Option<Conflict>, recovery: Option<Basis>): Queue
    requires r in s.runs
  {
    var run := s.runs[r];
    var edit := run.edit.(message := message, conflict := conflict, recovery := recovery);
    var kept := Retain(WithEdit(s.(shown := Some(edit.id)), r, edit), run.key, edit);
    if s.listening then InPhase(kept, r, Asking).(waiting := s.waiting[edit.id := r])
    else InPhase(kept, r, Ended)
  }

  /** The end of an accepted attempt: the edit leaves the list. */
  function Accepted(s: Queue, r: RunId): Queue
    requires r in s.runs
  {
    var run := s.runs[r];
    InPhase(Withdraw(s.(shown := if s.shown == Some(run.edit.id) then None else s.shown), run.key, run.edit.id), r,
            Ended)
  }

  /** The attempt on a server known to be too old: kept with that message, nothing sent. */
  function Refuse(s: Queue, r: RunId): Queue
    requires r in s.runs
  {
    var refused := s.runs[r].edit.(message := BLOCKED);
    InPhase(Retain(WithEdit(s, r, refused), s.runs[r].key, refused), r, Ended)
  }

  function Transmit(s: Queue, r: RunId): Queue
    requires r in s.runs
  {
    var edit := s.runs[r].edit;
    InPhase(s, r, AwaitingResponse).(requests := s.requests + [Request(r, edit.id, edit.operation, edit.content)])
  }

  /** A new run, with the scope it captured. */
  function Started(s: Queue, r: RunId, edit: Edit): (next: Queue)
    ensures r in next.runs
  {
    s.(runs := s.runs[r := Run(edit, s.scope, s.connection, s.library, Recovering)],
       inFlight := s.inFlight[edit.id := r],
       usedRuns := s.usedRuns + {r})
  }

  /** `executeEdit`: one run per edit; a second call joins the one in flight. */
  function Execute(s: Queue, r: RunId, edit: Edit): Queue
  {
    if edit.id in s.inFlight then s else Attempt(Started(s, r, edit), r)
  }

  function Renew(s: Queue, edit: Edit): Queue
  {
    s.(issued := s.issued[edit.operation := Identity(edit.id, edit.content)],
       renewals := s.renewals[edit.id := (if edit.id in s.renewals then s.renewals[edit.id] else 0) + 1])
  }

  function WithRecovery(edit: Edit, operation: Id): Edit
    requires edit.recovery.Some?
  {
    edit.(content := edit.content.(basis := edit.recovery), recovery := None, operation := operation)
  }

  function WithReview(edit: Edit, operation: Id): Edit
    requires edit.conflict.Some?
  {
    var conflict := edit.conflict.value;
    edit.(content := edit.content.(reviewed := edit.content.reviewed[conflict.unit := conflict.revision]),
          operation := operation)
  }

  /** An owner's 'reviewed': a new basis or a new acknowledged revision, each under a new
      operation identity. */
  function ReviewedEdit(edit: Edit, first: Id, second: Id): Edit
  {
    var based := if edit.recovery.Some? then WithRecovery(edit, first) else edit;
    if based.conflict.Some? && based.conflict.value.reviewable then WithReview(based, second) else based
  }

  function ReviewedState(s: Queue, edit: Edit, first: Id, second: Id): (next: Queue)
    ensures next == s.(issued := next.issued, renewals := next.renewals)
  {
    var based := if edit.recovery.Some? then WithRecovery(edit, first) else edit;
    var s1 := if edit.recovery.Some? then Renew(s, based) else s;
    if based.conflict.Some? && based.conflict.value.reviewable then Renew(s1, WithReview(based, second)) else s1
  }

  // ----- Steps ----------------------------------------------------------------

  /** What the network can answer a suspended run. */
  datatype Answer =
    | BasisFetched(basis: Option<Basis>)
    | Responded(ok: bool)
    | Lost
    | OkBody(readable: bool)
    | ErrorBody(message: string, conflict: Option<Conflict>)

  /** Steps that are not the queue's own code, or only forget part of its state. */
  datatype Ambient =
    | Reaped(run: RunId)
    | ConnectionAdvanced(scope: Scope)
    | LibraryAdvanced(scope: Scope)
    | Opened(id: Id)
    | Reloaded(scope: Scope)
    | Surroundings(listening: bool, blocked: bool, storageWorks: bool)

  datatype Event =
    | Send(run: RunId, id: Id, operation: Id, content: Content)
    | Choose(edit: Edit, choice: Choice, run: RunId, first: Id, second: Id)
    | Answered(run: RunId, answer: Answer)
    | Resumed(run: RunId, first: Id, second: Id)
    | ListRead
    | Around(ambient: Ambient)
    | Delivered(request: nat, accepts: bool)

  predicate InRun(s: Queue, r: RunId, phase: Phase)
  {
    r in s.runs && s.runs[r].phase == phase
  }

  predicate FreshOperation(s: Queue, op: Id)
  {
    op !in s.issued
  }

  ghost predicate FreshEdit(s: Queue, id: Id)
  {
    forall op :: op in s.issued ==> s.issued[op].edit != id
  }

  predicate AnswerEnabled(s: Queue, server: Server, r: RunId, answer: Answer)
  {
    match answer
    case BasisFetched(basis) => InRun(s, r, Recovering) && (basis.Some? ==> ValidBasis(basis.value))
    case Responded(ok) => InRun(s, r, AwaitingResponse) && (ok ==> s.runs[r].edit.operation in server.recorded)
    case Lost => InRun(s, r, AwaitingResponse) || InRun(s, r, Recovering)
    case OkBody(_) => InRun(s, r, ReadingOk)
    case ErrorBody(_, _) => InRun(s, r, ReadingError)
  }

  predicate AmbientEnabled(s: Queue, a: Ambient)
  {
    a.Reaped? ==> InRun(s, a.run, Ended)
  }

  /** What the surroundings may do. Random identities are new; a response to a request
      is `ok` only if the server has recorded its operation; the server may handle any
      request that was ever sent, any number of times. */
  ghost predicate Enabled(s: State, e: Event)
  {
    var q := s.queue;
    match e
    case Send(r, id, op, content) =>
      r !in q.usedRuns && FreshEdit(q, id) && FreshOperation(q, op) && content.reviewed == map[]
    case Choose(edit, _, r, first, second) =>
      edit in q.published && r !in q.usedRuns && FreshOperation(q, first) && FreshOperation(q, second) &&
          first != second
    case Answered(r, answer) => AnswerEnabled(q, s.server, r, answer)
    case Resumed(r, first, second) =>
      r in q.runs && q.runs[r].phase.Chosen? && FreshOperation(q, first) && FreshOperation(q, second) && first != second
    case ListRead => true
    case Around(a) => AmbientEnabled(q, a)
    case Delivered(i, _) => i < |q.requests|
  }

  /** A continuation that finds its scope gone ends without touching anything else. */
  function Guarded(s: Queue, r: RunId, next: Queue): Queue
    requires r in s.runs
  {
    if Fenced(s, r) then next else InPhase(s, r, Ended)
  }

  function Match(items: seq<Edit>, content: Content): Option<Edit>
  {
    if items == [] then None
    else if items[0].content.(reviewed := map[]) == content.(reviewed := map[]) then Some(items[0])
    else Match(items[1..], content)
  }

  /** `sendMetadata`: the same request already retained is executed again; otherwise a new
      edit with its own identities. */
  function Sent(s: Queue, r: RunId, id: Id, op: Id, content: Content): Queue
  {
    var loaded := Loaded(s);
    match Match(ListOf(loaded, s.scope), content)
    case Some(pending) => Execute(loaded, r, pending)
    case None =>
      var edit := Edit(id, content, op, "", None, None);
      Execute(loaded.(issued := loaded.issued[op := Identity(id, content)]), r, edit)
  }

  /** `chooseEdit` */
  function ChoiceMade(s: Queue, edit: Edit, choice: Choice, r: RunId, first: Id, second: Id): Queue
  {
    if edit.id in s.waiting then
      var waiter := s.waiting[edit.id];
      if InRun(s, waiter, Asking) then InPhase(s, waiter, Chosen(choice)) else s
    else
      match choice
      case Keep =>
        var loaded := Loaded(s).(shown := None);
        Publish(loaded, s.scope, ListOf(loaded, s.scope))
      case Discard =>
        var loaded := Loaded(s).(shown := None);
        Withdraw(loaded, s.scope, edit.id)
      case Retry => Execute(s, r, edit)
      case Reviewed =>
        Execute(ReviewedState(s, edit, first, second), r, ReviewedEdit(edit, first, second))
  }

  /** The run's edit under its new identity. */
  function Revised(s: Queue, r: RunId, first: Id, second: Id): (next: Queue)
    requires r in s.runs
    ensures r in next.runs
    ensures next == s.(issued := next.issued, renewals := next.renewals, runs := next.runs)
  {
    WithEdit(ReviewedState(s, s.runs[r].edit, first, second), r, ReviewedEdit(s.runs[r].edit, first, second))
  }

  /** A run goes on after the owner's choice; it no longer waits. */
  function AfterChoice(s: Queue, r: RunId, choice: Choice, first: Id, second: Id): Queue
    requires r in s.runs
  {
    match choice
    case Keep => InPhase(Publish(s.(shown := None), s.runs[r].key, ListOf(s, s.runs[r].key)), r, Ended)
    case Discard => InPhase(Withdraw(s.(shown := None), s.runs[r].key, s.runs[r].edit.id), r, Ended)
    case Retry => Attempt(s, r)
    case Reviewed => Attempt(Revised(s, r, first, second), r)
  }

  function Freed(s: Queue, r: RunId): Queue
    requires r in s.runs
  {
    s.(waiting := s.waiting - {s.runs[r].edit.id})
  }

  /** `retireMetadataRequests`: every question is answered 'keep'. */
  function Retired(s: Queue): Queue
  {
    s.(runs := map r | r in s.runs ::
         if s.runs[r].phase.Asking? then s.runs[r].(phase := Chosen(Keep)) else s.runs[r],
       shown := None)
  }

  /** The server handles a request it was sent: a recorded operation is not applied again. */
  function ServerTurn(server: Server, q: Request, accepts: bool): Server
  {
    if q.operation in server.recorded || !accepts then server
    else Server(server.recorded[q.operation := q.content], server.applied + [q])
  }

  function PageReload(s: Queue, scope: Scope): Queue
  {
    s.(retained := map[], waiting := map[], inFlight := map[], runs := map[], shown := None, published := {},
       connection := 0, library := 0, scope := scope)
  }

  function Reap(s: Queue, r: RunId): Queue
    requires r in s.runs
  {
    s.(runs := s.runs - {r}, inFlight := s.inFlight - {s.runs[r].edit.id})
  }

  function AfterAmbient(s: Queue, a: Ambient): Queue
    requires AmbientEnabled(s, a)
  {
    match a
    case Reaped(r) => Reap(s, r)
    case ConnectionAdvanced(scope) => Retired(s).(connection := s.connection + 1, scope := scope)
    case LibraryAdvanced(scope) => Retired(s).(library := s.library + 1, scope := scope)
    case Opened(id) => s.(shown := Some(id))
    case Reloaded(scope) => PageReload(s, scope)
    case Surroundings(listening, blocked, storageWorks) =>
      s.(listening := listening, blocked := blocked, storageWorks := storageWorks)
  }

  /** A run goes on with the network's answer, its scope still current. */
  function AfterAnswer(s: Queue, r: RunId, answer: Answer): Queue
    requires r in s.runs
  {
    match answer
    case BasisFetched(basis) => Failed(s, r, if basis.Some? then REVIEW_FIRST else NO_OPENING, None, basis)
    case Responded(ok) => InPhase(s, r, if ok then ReadingOk else ReadingError)
    case Lost => Failed(s, r, UNCONFIRMED, None, None)
    case OkBody(readable) => if readable then Accepted(s, r) else Failed(s, r, UNCONFIRMED, None, None)
    case ErrorBody(message, conflict) => Failed(s, r, message, conflict, None)
  }

  function Continued(s: Queue, r: RunId, first: Id, second: Id): Queue
    requires r in s.runs && s.runs[r].phase.Chosen?
  {
    if Fenced(s, r) then AfterChoice(Freed(s, r), r, s.runs[r].phase.choice, first, second)
    else InPhase(Freed(s, r), r, Ended)
  }

  /** The queue's part of a step. */
  function QueueAfter(s: Queue, e: Event): Queue
    requires e.Answered? || e.Resumed? ==> e.run in s.runs
    requires e.Resumed? ==> s.runs[e.run].phase.Chosen?
    requires e.Around? ==> AmbientEnabled(s, e.ambient)
  {
    match e
    case Send(r, id, op, content) => Sent(s, r, id, op, content)
    case Choose(edit, choice, r, first, second) => ChoiceMade(s, edit, choice, r, first, second)
    case Answered(r, answer) => Guarded(s, r, AfterAnswer(s, r, answer))
    case Resumed(r, first, second) => Continued(s, r, first, second)
    case ListRead => Loaded(s)
    case Around(a) => AfterAmbient(s, a)
    case Delivered(_, _) => s
  }

  ghost function After(s: State, e: Event): State
    requires Enabled(s, e)
  {
    State(QueueAfter(s.queue, e), if e.Delivered? then ServerTurn(s.server, s.queue.requests[e.request], e.accepts)
          else s.server)
  }

  ghost predicate History(states: seq<State>, events: seq<Event>)
  {
    && |states| == |events| + 1
    && forall i {:trigger events[i]} :: 0 <= i < |events| ==>
        Enabled(states[i], events[i]) && states[i + 1] == After(states[i], events[i])
  }

  /** One more step of a history. */
  lemma Append(states: seq<State>, events: seq<Event>, e: Event, n: State)
    requires History(states, events) && Enabled(Last(states), e) && n == After(Last(states), e)
    ensures History(states + [n], events + [e])
  {
    var longer, more := states + [n], events + [e];
    forall i {:trigger more[i]} | 0 <= i < |more|
      ensures Enabled(longer[i], more[i]) && longer[i + 1] == After(longer[i], more[i])
    {
      if i < |events| {
        assert more[i] == events[i] && longer[i] == states[i] && longer[i + 1] == states[i + 1];
      }
    }
  }
}
