/** Provisioning one subscription: tasks that may run at once, be repeated and crash anywhere,
    around a remote service whose answers may be lost. Each datatype value below is one atomic
    step of one task, of the network or of the environment. */
module Provisioning {
  import opened Prelude

  /** Seconds for which a started attempt keeps others out. */
  const HOLD := 300

  datatype Status = Waiting | Live | OtherStatus

  datatype Progress = NotStarted | InProgress | Ready | NeedsReview | RetryableError | Unsupported

  datatype OrderStage = OrderPaid | OrderProcessing | OrderCompleted

  /** The columns of a subscription that provisioning reads and writes; `identity` is the
      remote id saved for it. */
  datatype Row = Row(status: Status, attempts: nat, startedAt: Option<int>, progress: Progress, retryable: bool,
                     identity: Option<nat>)

  /** Where a task stands. */
  datatype Place =
    | Queued                 // before the gate
    | Entered                // through the gate
    | Loaded(seen: Status, known: Option<nat>)  // read as not live, with this status and identity
    | Checking(known: Option<nat>)              // about to look for a saved identity
    | Creating               // found none: about to send the create request
    | Awaiting               // request sent
    | Answered(id: nat)      // response arrived, not saved yet
    | Saved(id: nat)         // identity saved, credentials not yet
    | LookingUp(id: nat)     // about to look the account up
    | Erred                  // an exception inside the provider code
    | Returning              // provider code is done
    | Classifying            // order updated, outcome to be recorded
    | Over                   // finished, held back or crashed

  /** A create request; `answer` is the account it created. */
  datatype Request = Request(task: nat, dropped: bool, answer: Option<nat>)

  datatype World = World(row: Row, order: OrderStage, tasks: seq<Place>, requests: seq<Request>, accounts: seq<nat>)

  // ----- what a worker does atomically -----

  datatype Verdict = AlreadyLive | Held | Busy | Go

  function GateVerdict(r: Row, now: int): Verdict {
    if r.status.Live? then AlreadyLive
    else if r.attempts > 0 && r.identity.None? then Held
    else if r.startedAt.Some? && now - HOLD < r.startedAt.value then Busy
    else Go
  }

  /** The locked gate in front of every attempt. */
  function Gate(r: Row, now: int): Row {
    match GateVerdict(r, now)
    case Held => r.(progress := NeedsReview, retryable := false)
    case Go => r.(startedAt := Some(now), attempts := r.attempts + 1, progress := InProgress, retryable := false)
    case _ => r
  }

  /** How an exception that escapes the provider code is recorded. */
  function AfterException(r: Row): Row {
    r.(progress := if r.identity.Some? then RetryableError else NeedsReview, retryable := r.identity.Some?)
  }

  /** How a return is recorded: a live subscription is ready, a recorded problem stays, and
      otherwise the saved identity decides. */
  function AfterReturn(r: Row): Row {
    if r.status.Live? then r.(progress := Ready, retryable := false)
    else if r.progress.Unsupported? || r.progress.RetryableError? || r.progress.NeedsReview? then r
    else AfterException(r)
  }

  // ----- steps -----

  datatype Lookup = Usable | NotYet | LookupFailed

  datatype Step =
    | Enqueue
    | EnterGate(task: nat, now: int)
    | Load(task: nat, providerOk: bool)
    | ResetStatus(task: nat, supported: bool)
    | ReadIdentity(task: nat, anew: bool)
    | Send(task: nat)
    | FailBeforeSending(task: nat)
    | Deliver(request: nat, id: nat)
    | Lose(request: nat)
    | Receive(task: nat, request: nat)
    | GiveUp(task: nat)
    | SaveIdentity(task: nat)
    | SaveCredentials(task: nat)
    | LookUp(task: nat, outcome: Lookup)
    | RecordError(task: nat, known: bool)
    | UpdateOrder(task: nat)
    | Classify(task: nat)
    | Escape(task: nat)
    | Crash(task: nat)

  predicate At(w: World, task: nat, place: Place) {
    task < |w.tasks| && w.tasks[task] == place
  }

  function Move(w: World, task: nat, place: Place): World
    requires task < |w.tasks|
  {
    w.(tasks := w.tasks[task := place])
  }

  /** After the gate and before the end. */
  predicate IsRunning(p: Place) {
    !p.Queued? && !p.Over?
  }

  /** The effect of a step; None when it cannot happen now. One provider's code reads the
      identity again before it decides, the other trusts the row it loaded: `anew` says which. */
  function Next(w: World, step: Step): Option<World> {
    match step
    case Enqueue => Some(w.(tasks := w.tasks + [Queued]))
    case EnterGate(t, now) =>
      if !At(w, t, Queued) then None else
      Some(Move(w.(row := Gate(w.row, now)), t, if GateVerdict(w.row, now).Go? then Entered else Over))
    case Load(t, providerOk) =>
      if !At(w, t, Entered) then None
      else if w.row.status.Live? then Some(Move(w, t, Classifying))
      else if !providerOk then Some(Move(w.(row := w.row.(progress := RetryableError, retryable := true)), t, Classifying))
      else Some(Move(w, t, Loaded(w.row.status, w.row.identity)))
    case ResetStatus(t, supported) =>
      if t >= |w.tasks| || !w.tasks[t].Loaded? then None else
      var reset := if w.tasks[t].seen.Waiting? then w.row else w.row.(status := Waiting);
      if supported then Some(Move(w.(row := reset), t, Checking(w.tasks[t].known)))
      else Some(Move(w.(row := reset.(progress := Unsupported)), t, Classifying))
    case ReadIdentity(t, anew) =>
      if t >= |w.tasks| || !w.tasks[t].Checking? then None else
      var identity := if anew then w.row.identity else w.tasks[t].known;
      Some(Move(w, t, if identity.Some? then LookingUp(identity.value) else Creating))
    case Send(t) =>
      if !At(w, t, Creating) then None
      else Some(Move(w.(requests := w.requests + [Request(t, false, None)]), t, Awaiting))
    case FailBeforeSending(t) => if At(w, t, Creating) then Some(Move(w, t, Erred)) else None
    case Deliver(r, id) =>
      if r >= |w.requests| || w.requests[r].dropped || w.requests[r].answer.Some? || id in w.accounts then None
      else Some(w.(requests := w.requests[r := w.requests[r].(answer := Some(id))], accounts := w.accounts + [id]))
    case Lose(r) =>
      if r >= |w.requests| || w.requests[r].answer.Some? then None
      else Some(w.(requests := w.requests[r := w.requests[r].(dropped := true)]))
    case Receive(t, r) =>
      if !At(w, t, Awaiting) || r >= |w.requests| || w.requests[r].task != t || w.requests[r].answer.None? then None
      else Some(Move(w, t, Answered(w.requests[r].answer.value)))
    case GiveUp(t) => if At(w, t, Awaiting) then Some(Move(w, t, Erred)) else None
    case SaveIdentity(t) =>
      if t >= |w.tasks| || !w.tasks[t].Answered? then None
      else Some(Move(w.(row := w.row.(identity := Some(w.tasks[t].id))), t, Saved(w.tasks[t].id)))
    case SaveCredentials(t) =>
      if t >= |w.tasks| || !w.tasks[t].Saved? then None else Some(Move(w, t, LookingUp(w.tasks[t].id)))
    case LookUp(t, outcome) =>
      if t >= |w.tasks| || !w.tasks[t].LookingUp? then None else
      (match outcome
       case Usable => Some(Move(w.(row := w.row.(status := Live, progress := Ready, retryable := false)), t, Returning))
       case NotYet => Some(Move(w, t, Returning))
       case LookupFailed => Some(Move(w, t, Erred)))
    case RecordError(t, known) =>
      if !At(w, t, Erred) then None
      else if known then Some(Move(w.(row := w.row.(progress := NeedsReview, retryable := false)), t, Returning))
      else Some(Move(w, t, Returning))
    case UpdateOrder(t) =>
      if !At(w, t, Returning) then None
      else Some(Move(w.(order := if w.row.status.Live? then OrderCompleted else OrderProcessing), t, Classifying))
    case Classify(t) =>
      if !At(w, t, Classifying) then None else Some(Move(w.(row := AfterReturn(w.row)), t, Over))
    case Escape(t) =>
      if t >= |w.tasks| || !IsRunning(w.tasks[t]) then None
      else Some(Move(w.(row := AfterException(w.row)), t, Over))
    case Crash(t) => if t >= |w.tasks| then None else Some(Move(w, t, Over))
  }

  function Run(w: World, steps: seq<Step>): World
    decreases |steps|
  {
    if steps == [] then w else
      match Next(w, steps[0])
      case Some(v) => Run(v, steps[1..])
      case None => Run(w, steps[1..])
  }

  function Start(status: Status): World
  {
    World(Row(status, 0, None, NotStarted, false, None), OrderPaid, [], [], [])
  }

  // ----- at most one account -----

  /** Not known here yet whether an identity was saved, or the create request is about to leave. */
  predicate MayCreate(p: Place) {
    p.Entered? || p.Loaded? || p.Checking? || p.Creating?
  }

  /** The identity that a task took from the row it loaded. */
  predicate Remembers(p: Place, identity: Option<nat>) {
    match p
    case Loaded(_, known) => known == identity
    case Checking(known) => known == identity
    case _ => true
  }

  predicate HoldsAnswer(p: Place) {
    p.Answered? || p.Saved? || p.LookingUp?
  }

  /** Task `o` made the first attempt. Every other task that passed the gate has seen a saved
      identity, so only o ever sends a request, and it sends one. */
  ghost predicate Opened(w: World, o: nat) {
    && o < |w.tasks| && 0 < w.row.attempts
    && (forall t :: 0 <= t < |w.tasks| && t != o && IsRunning(w.tasks[t]) ==>
          w.row.identity.Some? && !w.tasks[t].Creating? && !w.tasks[t].Awaiting?
          && !w.tasks[t].Answered? && !w.tasks[t].Saved? && Remembers(w.tasks[t], w.row.identity))
    && !w.tasks[o].Queued? && (w.row.identity.None? ==> Remembers(w.tasks[o], None))
    && |w.requests| <= 1 && |w.accounts| <= 1
    && (w.requests == [] ==> w.accounts == [] && w.row.identity.None? && !w.tasks[o].Awaiting?)
    && (w.requests != [] ==>
          && w.requests[0].task == o && !MayCreate(w.tasks[o])
          && w.accounts == (if w.requests[0].answer.Some? then [w.requests[0].answer.value] else []))
    && (w.row.identity.Some? ==> w.accounts == [w.row.identity.value])
    && (w.row.identity.None? ==> !w.tasks[o].Saved?)
    && (forall t :: 0 <= t < |w.tasks| && HoldsAnswer(w.tasks[t]) ==> w.accounts == [w.tasks[t].id])
    && (forall t :: 0 <= t < |w.tasks| && (w.tasks[t].Saved? || w.tasks[t].LookingUp?) ==> w.row.identity.Some?)
  }

  /** No attempt was made yet. */
  ghost predicate Unopened(w: World) {
    && w.row.attempts == 0 && w.row.identity.None? && w.requests == [] && w.accounts == [] && !w.row.retryable
    && forall t :: 0 <= t < |w.tasks| ==> !IsRunning(w.tasks[t])
  }

  ghost predicate Inv(w: World) {
    Unopened(w) || exists o :: Opened(w, o)
  }

  /** A place that a task may move to without sending, answering or saving anything. */
  predicate MayMove(w: World, o: nat, t: nat, place: Place)
    requires t < |w.tasks|
  {
    && !place.Queued? && !place.Awaiting? && !place.Answered?
    && (t != o && IsRunning(place) ==> w.row.identity.Some? && !place.Creating? && !place.Saved?)
    && (t == o && w.requests != [] ==> !MayCreate(place))
    && Remembers(place, w.row.identity)
    && (HoldsAnswer(place) ==> w.row.identity.Some? && w.accounts == [place.id])
  }

  lemma MoveKeepsOpened(w: World, o: nat, t: nat, place: Place, row: Row, order: OrderStage)
    requires Opened(w, o) && t < |w.tasks| && MayMove(w, o, t, place)
    requires row.identity == w.row.identity && w.row.attempts <= row.attempts
    ensures Opened(Move(w.(row := row, order := order), t, place), o)
  {
  }

  /** The one create request leaves. */
  lemma SendKeepsOpened(w: World, o: nat, step: Step)
    requires Opened(w, o) && Next(w, step).Some? && (step.Enqueue? || step.Send?)
    ensures Opened(Next(w, step).value, o)
  {
  }

  /** The network delivers or loses it. */
  lemma NetworkKeepsOpened(w: World, o: nat, step: Step)
    requires Opened(w, o) && Next(w, step).Some? && (step.Deliver? || step.Lose?)
    ensures Opened(Next(w, step).value, o)
  {
  }

  /** Its answer arrives and is saved. */
  lemma AnswerKeepsOpened(w: World, o: nat, step: Step)
    requires Opened(w, o) && Next(w, step).Some? && (step.Receive? || step.SaveIdentity?)
    ensures Opened(Next(w, step).value, o)
  {
  }

  lemma StepMayMove(w: World, o: nat, step: Step)
    requires Opened(w, o) && Next(w, step).Some?
    requires !step.Enqueue? && !step.Send? && !step.Deliver? && !step.Lose? && !step.Receive? && !step.SaveIdentity?
    ensures var v := Next(w, step).value;
            && step.task < |w.tasks| == |v.tasks| && MayMove(w, o, step.task, v.tasks[step.task])
            && v == Move(w.(row := v.row, order := v.order), step.task, v.tasks[step.task])
            && v.row.identity == w.row.identity && w.row.attempts <= v.row.attempts
  {
  }

  lemma NextKeepsOpened(w: World, o: nat, step: Step)
    requires Opened(w, o) && Next(w, step).Some?
    ensures Opened(Next(w, step).value, o)
  {
    hide Opened, Next, MayMove;
    if step.Enqueue? || step.Send? {
      SendKeepsOpened(w, o, step);
    } else if step.Deliver? || step.Lose? {
      NetworkKeepsOpened(w, o, step);
    } else if step.Receive? || step.SaveIdentity? {
      AnswerKeepsOpened(w, o, step);
    } else {
      var v := Next(w, step).value;
      StepMayMove(w, o, step);
      MoveKeepsOpened(w, o, step.task, v.tasks[step.task], v.row, v.order);
    }
  }

  lemma NextKeepsInv(w: World, step: Step)
    requires Inv(w) && Next(w, step).Some?
    ensures Inv(Next(w, step).value)
  {
    var v := Next(w, step).value;
    if Unopened(w) {
      if step.EnterGate? && GateVerdict(w.row, step.now).Go? {
        assert Opened(v, step.task);
      } else {
        assert Unopened(v);
      }
    } else {
      var o :| Opened(w, o);
      NextKeepsOpened(w, o, step);
    }
  }

  lemma {:induction false} RunKeepsInv(w: World, steps: seq<Step>)
    requires Inv(w)
    ensures Inv(Run(w, steps)) && |w.requests| <= |Run(w, steps).requests|
    decreases |steps|
  {
    hide Inv;
    if steps != [] {
      if Next(w, steps[0]).Some? {
        NextKeepsInv(w, steps[0]);
        RunKeepsInv(Next(w, steps[0]).value, steps[1..]);
      } else {
        RunKeepsInv(w, steps[1..]);
      }
    }
  }

  /** Over every interleaving of tasks, every loss of a message and every crash, at most one
      create request is sent, at most one remote account exists, and an identity that was
      saved is that account's. */
  lemma AtMostOneAccount(status: Status, steps: seq<Step>)
    ensures var w := Run(Start(status), steps);
            && |w.requests| <= 1 && |w.accounts| <= 1
            && (w.row.identity.Some? ==> w.accounts == [w.row.identity.value])
            && (w.accounts != [] ==> 0 < w.row.attempts)
  {
    assert Unopened(Start(status));
    RunKeepsInv(Start(status), steps);
  }

  lemma NextKeepsIdentity(w: World, step: Step)
    requires Inv(w) && w.row.identity.Some? && Next(w, step).Some?
    ensures Next(w, step).value.row.identity == w.row.identity
  {
    if step.SaveIdentity? {
      var o :| Opened(w, o);
      assert HoldsAnswer(w.tasks[step.task]);
    }
  }

  /** A saved identity is final: it never changes and no further request is ever sent. */
  lemma {:induction false} SavedIdentityIsFinal(w: World, steps: seq<Step>)
    requires Inv(w) && w.row.identity.Some?
    ensures Run(w, steps).row.identity == w.row.identity
    ensures |Run(w, steps).requests| == |w.requests| == 1
    decreases |steps|
  {
    hide Next;
    if steps == [] {
      var o :| Opened(w, o);
    } else if Next(w, steps[0]).Some? {
      NextKeepsInv(w, steps[0]);
      NextKeepsIdentity(w, steps[0]);
      SavedIdentityIsFinal(Next(w, steps[0]).value, steps[1..]);
      var o :| Opened(w, o);
      assert |w.requests| <= |Next(w, steps[0]).value.requests| by { RequestsGrow(w, steps[0]); }
    } else {
      SavedIdentityIsFinal(w, steps[1..]);
    }
  }

  lemma RequestsGrow(w: World, step: Step)
    requires Next(w, step).Some?
    ensures |w.requests| <= |Next(w, step).value.requests|
  {
  }

  // ----- attempts without a saved identity -----

  /** An attempt was made, nothing was saved, and no task is under way. */
  predicate IsAbandoned(w: World) {
    && 0 < w.row.attempts && w.row.identity.None? && !w.row.status.Live?
    && forall t :: 0 <= t < |w.tasks| ==> !IsRunning(w.tasks[t])
  }

  lemma NextKeepsAbandoned(w: World, step: Step)
    requires IsAbandoned(w) && Next(w, step).Some?
    ensures var v := Next(w, step).value;
            && IsAbandoned(v) && |v.requests| == |w.requests|
            && (step.EnterGate? ==> v.row.progress.NeedsReview? && !v.row.retryable)
  {
  }

  /** A started attempt without a saved identity is held for review for good: whatever runs
      and crashes afterwards, no task passes the gate and no request is sent. */
  lemma {:induction false} AbandonedIsHeld(w: World, steps: seq<Step>)
    requires IsAbandoned(w)
    ensures var v := Run(w, steps);
            && IsAbandoned(v) && |v.requests| == |w.requests| && v.row.attempts == w.row.attempts
    decreases |steps|
  {
    hide Next;
    if steps != [] {
      if Next(w, steps[0]).Some? {
        NextKeepsAbandoned(w, steps[0]);
        assert Next(w, steps[0]).value.row.attempts == w.row.attempts by { AbandonedKeepsAttempts(w, steps[0]); }
        AbandonedIsHeld(Next(w, steps[0]).value, steps[1..]);
      } else {
        AbandonedIsHeld(w, steps[1..]);
      }
    }
  }

  lemma AbandonedKeepsAttempts(w: World, step: Step)
    requires IsAbandoned(w) && Next(w, step).Some?
    ensures Next(w, step).value.row.attempts == w.row.attempts
  {
  }

  // ----- what is recorded as retryable -----

  /** Behind an attempt whose hold is over, the gate opens exactly for a saved
      identity. */
  lemma GateNeedsIdentity(r: Row, now: int)
    requires 0 < r.attempts && !r.status.Live? && (r.startedAt.Some? ==> r.startedAt.value <= now - HOLD)
    ensures GateVerdict(r, now).Go? <==> r.identity.Some?
  {
  }

  /** The row promises a retry that the gate will refuse. */
  predicate IsMisrecorded(r: Row) {
    r.retryable && r.identity.None?
  }

  /** The attempt ends because no active provider is configured, before any identity exists. */
  predicate FindsNoProvider(w: World, step: Step) {
    step.Load? && !step.providerOk && !w.row.status.Live? && w.row.identity.None?
  }

  /** Only the missing provider makes such a row. */
  lemma MisrecordedByNoProvider(w: World, step: Step)
    requires !IsMisrecorded(w.row) && Next(w, step).Some?
    ensures IsMisrecorded(Next(w, step).value.row) <==> FindsNoProvider(w, step)
  {
  }

  /** Every attempt of the run that gets as far as the provider has one, or an identity. */
  predicate ProviderIsThere(w: World, steps: seq<Step>)
    decreases |steps|
  {
    steps == [] || (!FindsNoProvider(w, steps[0]) && ProviderIsThere(After(w, steps[0]), steps[1..]))
  }

  /** A step that cannot happen is no step. */
  function After(w: World, step: Step): World {
    match Next(w, step)
    case Some(v) => v
    case None => w
  }

  /** Then retryable means that an identity was saved, in every state of the run. */
  lemma {:induction false} RetryableIsHonest(w: World, steps: seq<Step>)
    requires !IsMisrecorded(w.row) && ProviderIsThere(w, steps)
    ensures !IsMisrecorded(Run(w, steps).row)
    decreases |steps|
  {
    hide Next;
    if steps != [] {
      if Next(w, steps[0]).Some? { MisrecordedByNoProvider(w, steps[0]); }
      RetryableIsHonest(After(w, steps[0]), steps[1..]);
    }
  }

  /** No task is under way. */
  predicate IsIdle(w: World) {
    forall t :: 0 <= t < |w.tasks| ==> !IsRunning(w.tasks[t])
  }

  /** Some later attempt passes the gate. */
  ghost predicate IsTakenUpAgain(w: World) {
    exists steps :: w.row.attempts < Run(w, steps).row.attempts
  }

  /** A subscription that was attempted, with no task under way, is ever taken up again if and
      only if an identity was saved, whatever is recorded about it. */
  lemma RetriedOnlyWithIdentity(w: World)
    requires 0 < w.row.attempts && !w.row.status.Live? && IsIdle(w)
    ensures IsTakenUpAgain(w) <==> w.row.identity.Some?
  {
    if w.row.identity.Some? {
      var now := if w.row.startedAt.Some? then w.row.startedAt.value + HOLD else 0;
      GateNeedsIdentity(w.row, now);
      TakeUp(w, now);
    } else {
      assert IsAbandoned(w);
      forall steps ensures Run(w, steps).row.attempts == w.row.attempts { AbandonedIsHeld(w, steps); }
    }
  }

  lemma TakeUp(w: World, now: int)
    requires GateVerdict(w.row, now).Go?
    ensures IsTakenUpAgain(w)
  {
    var steps := [Enqueue, EnterGate(|w.tasks|, now)];
    var v := Next(w, steps[0]).value;
    assert At(v, |w.tasks|, Queued);
    var u := Next(v, steps[1]).value;
    assert steps[1..][1..] == [] && steps[1..][0] == steps[1];
    assert Run(u, []) == u && Run(v, steps[1..]) == u && Run(w, steps) == u;
  }

  /** The first attempt of a subscription that has no active provider. */
  function FirstWithoutProvider(now: int): seq<Step> {
    [Enqueue, EnterGate(0, now), Load(0, false), Classify(0)]
  }

  /** Whatever its status and whenever it happens, a first attempt without a provider is
      recorded as retryable, although it counts as a started attempt: it is never taken up
      again, no request is sent and no account is created. */
  lemma RetryableIsNotRetried(status: Status, now: int, steps: seq<Step>)
    requires !status.Live?
    ensures var w := Run(Start(status), FirstWithoutProvider(now));
            && w.row.retryable && w.row.progress.RetryableError? && IsAbandoned(w) && !IsTakenUpAgain(w)
            && Run(w, steps).requests == [] && Run(w, steps).accounts == []
  {
    hide Run, Next;
    var w := FirstOutcome(status, now);
    FirstRunEnds(status, now);
    assert Opened(w, 0);
    RetriedOnlyWithIdentity(w);
    NoAccountWithoutRequest(w, steps);
  }

  function FirstOutcome(status: Status, now: int): World {
    World(Row(status, 1, Some(now), RetryableError, true, None), OrderPaid, [Over], [], [])
  }

  lemma FirstRunEnds(status: Status, now: int)
    requires !status.Live?
    ensures Run(Start(status), FirstWithoutProvider(now)) == FirstOutcome(status, now)
  {
    var s0, first, w := Start(status), FirstWithoutProvider(now), FirstOutcome(status, now);
    var s1 := Next(s0, first[0]).value;
    var s2 := Next(s1, first[1]).value;
    var s3 := Next(s2, first[2]).value;
    assert Next(s3, first[3]).value.tasks == [Over];
    assert first[1..][1..] == first[2..] && first[2..][1..] == first[3..] && first[3..][1..] == [];
    assert Run(w, []) == w && Run(s3, first[3..]) == w;
    assert Run(s2, first[2..]) == w && Run(s1, first[1..]) == w;
  }

  lemma NoAccountWithoutRequest(w: World, steps: seq<Step>)
    requires IsAbandoned(w) && w.requests == [] && w.accounts == [] && w.tasks == [Over]
    ensures Run(w, steps).requests == [] && Run(w, steps).accounts == []
  {
    hide Next;
    assert Opened(w, 0);
    RunKeepsInv(w, steps);
    AbandonedIsHeld(w, steps);
  }

  // ----- what a finished attempt leaves -----

  /** The provider's code has recorded why it stopped. */
  predicate HasProblem(p: Progress) {
    p.Unsupported? || p.RetryableError? || p.NeedsReview?
  }

  /** The last step of an attempt that was not successful and recorded no problem of its own:
      an exception that escapes, or a return. */
  predicate EndsUnsolved(w: World, step: Step) {
    || (step.Escape? && step.task < |w.tasks| && IsRunning(w.tasks[step.task]))
    || (step.Classify? && At(w, step.task, Classifying) && !w.row.status.Live? && !HasProblem(w.row.progress))
  }

  /** Such an attempt is offered for a retry exactly when an identity was saved, and is held
      for review otherwise. */
  lemma UnsolvedIsRetryable(w: World, step: Step)
    requires EndsUnsolved(w, step)
    ensures Next(w, step).Some?
    ensures var r := Next(w, step).value.row;
            && (r.retryable <==> w.row.identity.Some?)
            && r.progress == (if w.row.identity.Some? then RetryableError else NeedsReview)
            && r.identity == w.row.identity && r.status == w.row.status && r.attempts == w.row.attempts
  {
  }

  /** A return with a live subscription is recorded as ready, one with a recorded problem is
      left as it is. */
  lemma SolvedIsReady(w: World, task: nat)
    requires At(w, task, Classifying) && (w.row.status.Live? || HasProblem(w.row.progress))
    ensures Next(w, Classify(task)).Some?
    ensures Next(w, Classify(task)).value.row
         == if w.row.status.Live? then w.row.(progress := Ready, retryable := false) else w.row
  {
  }

  /** In every run, an attempt that ends unsolved after its account was saved leaves a row that
      may be retried, and that a later task does take up again once nothing is under way. */
  lemma SavedAccountIsRetried(status: Status, steps: seq<Step>, last: Step)
    requires EndsUnsolved(Run(Start(status), steps), last)
    requires Run(Start(status), steps).row.identity.Some? && !Run(Start(status), steps).row.status.Live?
    ensures var v := Next(Run(Start(status), steps), last);
            && v.Some? && v.value.row.retryable && v.value.row.progress.RetryableError?
            && (IsIdle(v.value) ==> IsTakenUpAgain(v.value))
  {
    hide Run, Next, IsTakenUpAgain;
    var w := Run(Start(status), steps);
    assert Inv(w) by {
      assert Unopened(Start(status));
      RunKeepsInv(Start(status), steps);
    }
    UnsolvedIsRetryable(w, last);
    NextKeepsInv(w, last);
    RetryableWasAttempted(Next(w, last).value);
    if IsIdle(Next(w, last).value) { RetriedOnlyWithIdentity(Next(w, last).value); }
  }

  /** A retry is recorded for attempted subscriptions only. */
  lemma RetryableWasAttempted(w: World)
    requires Inv(w) && w.row.retryable
    ensures 0 < w.row.attempts
  {
  }

  /** The steps after an error that the provider's code knows. */
  function KnownError(task: nat): seq<Step> {
    [RecordError(task, true), UpdateOrder(task), Classify(task)]
  }

  /** A known error is recorded for review even when the account was saved before it, as in a
      failed lookup; a later task takes the subscription up all the same. */
  lemma KnownErrorIsTakenUp(w: World, task: nat)
    requires Inv(w) && At(w, task, Erred) && !w.row.status.Live? && w.row.identity.Some?
    ensures var v := Run(w, KnownError(task));
            && v.row.progress.NeedsReview? && !v.row.retryable && v.row.identity == w.row.identity
            && (IsIdle(v) ==> IsTakenUpAgain(v))
  {
    hide IsTakenUpAgain;
    var steps := KnownError(task);
    var a := Next(w, steps[0]).value;
    var b := Next(a, steps[1]).value;
    var c := Next(b, steps[2]).value;
    assert steps[1..][1..] == steps[2..] && steps[2..][1..] == [];
    assert Run(c, []) == c && Run(b, steps[2..]) == c && Run(a, steps[1..]) == c && Run(w, steps) == c;
    assert 0 < c.row.attempts by { assert IsRunning(w.tasks[task]); }
    if IsIdle(c) { RetriedOnlyWithIdentity(c); }
  }

  /** An order is completed exactly by a subscription that is live when the attempt returns. */
  lemma OrderFollowsSubscription(w: World, task: nat)
    requires At(w, task, Returning)
    ensures Next(w, UpdateOrder(task)).Some?
    ensures Next(w, UpdateOrder(task)).value.order.OrderCompleted? <==> w.row.status.Live?
    ensures Next(w, UpdateOrder(task)).value.order.OrderProcessing? <==> !w.row.status.Live?
  {
  }

  // ----- the subscription as an object -----

  class Subscription {
    var status: Status
    var attempts: nat
    var startedAt: Option<int>
    var progress: Progress
    var retryable: bool
    var identity: Option<nat>

    constructor (status: Status)
      ensures Columns() == Start(status).row
    {
      this.status, attempts, startedAt := status, 0, None;
      progress, retryable, identity := NotStarted, false, None;
    }

    function Columns(): Row
      reads this
    {
      Row(status, attempts, startedAt, progress, retryable, identity)
    }

    /** The locked section at the start of a task: true when this task may go on. */
    method PassGate(now: int) returns (go: bool)
      modifies this`startedAt, this`attempts, this`progress, this`retryable
      ensures go == GateVerdict(old(Columns()), now).Go?
      ensures Columns() == Gate(old(Columns()), now)
      ensures go <==> !status.Live? && (old(attempts) == 0 || identity.Some?)
                      && !(old(startedAt).Some? && now - 300 < old(startedAt).value)
      ensures go ==> attempts == old(attempts) + 1 && startedAt == Some(now) && progress.InProgress?
      ensures go ==> !status.Live? && (old(attempts) == 0 || identity.Some?)
      ensures !go ==> attempts == old(attempts) && startedAt == old(startedAt)
      ensures !go ==> status.Live? || (startedAt.Some? && now - HOLD < startedAt.value)
                      || (progress.NeedsReview? && !retryable && identity.None?)
    {
      if status.Live? { return false; }
      if attempts != 0 && identity.None? {
        progress := NeedsReview;
        retryable := false;
        return false;
      }
      if startedAt.Some? && now - HOLD < startedAt.value { return false; }
      startedAt := Some(now);
      attempts := attempts + 1;
      progress := InProgress;
      retryable := false;
      return true;
    }

    /** Record how the provider code ended: with an exception, or with a return. */
    method RecordOutcome(raised: bool)
      modifies this`progress, this`retryable
      ensures Columns() == if raised then AfterException(old(Columns())) else AfterReturn(old(Columns()))
      ensures retryable ==> identity.Some? || (!raised && old(retryable) && progress == old(progress))
      ensures raised || (!status.Live? && !HasProblem(old(progress))) ==>
        && (retryable <==> identity.Some?)
        && (progress.RetryableError? <==> identity.Some?) && (progress.NeedsReview? <==> identity.None?)
      ensures !raised && !status.Live? && HasProblem(old(progress)) ==> Columns() == old(Columns())
      ensures identity.None? && (raised || !status.Live?) ==>
        progress.NeedsReview? || (!raised && progress == old(progress))
      ensures !raised && status.Live? ==> progress.Ready? && !retryable
    {
      if !raised && status.Live? {
        progress := Ready;
        retryable := false;
        return;
      }
      if !raised && (progress.Unsupported? || progress.RetryableError? || progress.NeedsReview?) { return; }
      if identity.Some? {
        progress := RetryableError;
        retryable := true;
      } else {
        progress := NeedsReview;
        retryable := false;
      }
    }
  }
}
