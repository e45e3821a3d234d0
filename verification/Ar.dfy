/** The application relation's state machine (crates/pnio/src/cm/ar.rs), as a function of its
    state. Instants are integers in milliseconds. */
module Ars {
  import opened Wire
  import opened Status
  import opened Connect
  import opened ConnectRes
  import opened Control
  import opened Records

  const APP_READY_TIMEOUT := 1000
  const APP_READY_MAX_ATTEMPTS := 3
  const ACTIVITY_TIMEOUT_UNIT := 100
  const MAX_RECORDS := 64
  const MAX_RECORD_BYTES := 64 * 1024

  datatype ArState = Idle | Connected | AppReadySent | Data

  datatype Event =
    | Connecting(req: ConnectReq)
    | Writing(records: seq<Record>)
    | PrmEnd(control: ControlBlock)
    | Release(control: ControlBlock)
    | AppReadyRsp(status: PnioStatus)
    | Tick
    | Abort(reason: AbortReason)

  datatype Action =
    | Respond(status: PnioStatus, blocks: Bytes)
    | CallController(blocks: Bytes)
    | Notify(state: ArState, reason: Option<AbortReason>)

  datatype Context = Context(params: ArParams, records: seq<Record>, connectedAt: int, connectRes: Bytes)

  datatype Ar = Ar(model: DeviceModel, state: ArState, ctx: Option<Context>, attempts: nat,
                   appReadyDeadline: Option<int>, activityDeadline: Option<int>)

  type Step = (Ar, seq<Action>)

  function NewAr(model: DeviceModel): Ar { Ar.Ar(model, Idle, None, 0, None, None) }

  /** A context exists exactly outside `Idle`: what the handlers rely on. */
  predicate HasContext(ar: Ar) { ar.state.Idle? <==> ar.ctx.None? }

  function Reject(status: PnioStatus): Action { Respond(status, []) }

  /** Both timers, the attempts and the context are dropped. */
  function ToIdle(ar: Ar): Ar { NewAr(ar.model) }

  function Aborting(ar: Ar, reason: AbortReason): Step { (ToIdle(ar), [Notify(Idle, Some(reason))]) }

  function Establish(ar: Ar, req: ConnectReq, now: int): Step
    requires ar.state.Idle?
  {
    match Validate(req, ar.model)
    case Err(status) => (ar, [Reject(status)])
    case Ok(params) =>
      var res := BuildConnectRes(params, ar.model);
      (ar.(state := Connected, ctx := Some(Context(params, [], now, res)),
           activityDeadline := Some(now + ACTIVITY_TIMEOUT_UNIT * params.activityTimeoutFactor)),
       [Respond(OK, res), Notify(Connected, None)])
  }

  function OnConnect(ar: Ar, req: ConnectReq, now: int): Step
    requires HasContext(ar)
    decreases if ar.state.Idle? then 0 else 1
  {
    if ar.state.Idle? then Establish(ar, req, now)
    else
      var ctx := ar.ctx.value;
      var sameAr := req.ar.arUuid == ctx.params.arUuid;
      var sameSession := req.ar.sessionKey == ctx.params.sessionKey;
      var sameInitiator := req.ar.initiatorObjectUuid == ctx.params.initiatorObjectUuid;
      if sameAr && sameSession then (ar, [Respond(OK, ctx.connectRes)])
      else if sameAr || sameInitiator then
        var (idle, gone) := Aborting(ar, ControllerReconnect);
        var (ar', actions) := OnConnect(idle, req, now);
        (ar', gone + actions)
      else (ar, [Reject(CONNECT_AR_ALREADY_EXISTS)])
  }

  /** Data octets of the records together. */
  function DataBytes(rs: seq<Record>): nat {
    if rs == [] then 0 else DataBytes(rs[..|rs| - 1]) + |rs[|rs| - 1].data|
  }

  predicate ExceedsCap(stored: seq<Record>, incoming: seq<Record>) {
    |stored| + |incoming| > MAX_RECORDS || DataBytes(stored + incoming) > MAX_RECORD_BYTES
  }

  function OnWrite(ar: Ar, records: seq<Record>, now: int): Step
    requires HasContext(ar)
  {
    if ar.state.Idle? then (ar, [Reject(CONTROL_WRONG_STATE)])
    else
      var ctx := ar.ctx.value;
      if exists r <- records :: r.arUuid != ctx.params.arUuid then (ar, [Reject(WRITE_WRONG_AR)])
      else if ExceedsCap(ctx.records, records) then (ar, [Reject(WRITE_RESOURCE_UNAVAILABLE)])
      else
        (ar.(ctx := Some(ctx.(records := ctx.records + records)),
             activityDeadline := if ar.state.Connected?
                                 then Some(now + ACTIVITY_TIMEOUT_UNIT * ctx.params.activityTimeoutFactor)
                                 else ar.activityDeadline),
         [Respond(OK, BuildWriteRes(records))])
  }

  /** The ApplicationReady call of an AR. */
  function AppReadyCall(params: ArParams): Bytes { WriteControl(AppReadyReq(params.arUuid, params.sessionKey)) }

  function OnPrmEnd(ar: Ar, control: ControlBlock, now: int): Step
    requires HasContext(ar)
  {
    if ar.state.Idle? || control.arUuid != ar.ctx.value.params.arUuid then (ar, [Reject(CONTROL_WRONG_STATE)])
    else
      var done := Respond(OK, WriteControl(PrmEndDone(control)));
      if ar.state.Connected? then
        (ar.(state := AppReadySent, attempts := 1, appReadyDeadline := Some(now + APP_READY_TIMEOUT),
             activityDeadline := None),
         [done, CallController(AppReadyCall(ar.ctx.value.params))])
      else (ar, [done])
  }

  function OnRelease(ar: Ar, control: ControlBlock): Step
    requires HasContext(ar)
  {
    if !ar.state.Idle? && control.arUuid != ar.ctx.value.params.arUuid then (ar, [Reject(CONTROL_WRONG_STATE)])
    else
      var done := Respond(OK, WriteControl(ReleaseDone(control)));
      if ar.state.Idle? then (ar, [done])
      else
        var (ar', gone) := Aborting(ar, ControllerRelease);
        (ar', [done] + gone)
  }

  function OnAppReadyRsp(ar: Ar, status: PnioStatus): Step {
    if !ar.state.AppReadySent? then (ar, [])
    else if status != OK then Aborting(ar, AppReadyRejected(status))
    else
      (ar.(state := Data, appReadyDeadline := None, activityDeadline := None, attempts := 0),
       [Notify(Data, None)])
  }

  predicate Due(deadline: Option<int>, now: int) { deadline.Some? && now >= deadline.value }

  function OnTick(ar: Ar, now: int): Step
    requires HasContext(ar)
  {
    if ar.state.Connected? && Due(ar.activityDeadline, now) then Aborting(ar, ActivityTimeout)
    else if ar.state.AppReadySent? && Due(ar.appReadyDeadline, now) then
      if ar.attempts < APP_READY_MAX_ATTEMPTS then
        (ar.(attempts := ar.attempts + 1, appReadyDeadline := Some(now + APP_READY_TIMEOUT)),
         [CallController(AppReadyCall(ar.ctx.value.params))])
      else Aborting(ar, AppReadyFailed)
    else (ar, [])
  }

  function On(ar: Ar, ev: Event, now: int): Step
    requires HasContext(ar)
  {
    match ev
    case Connecting(req) => OnConnect(ar, req, now)
    case Writing(records) => OnWrite(ar, records, now)
    case PrmEnd(control) => OnPrmEnd(ar, control, now)
    case Release(control) => OnRelease(ar, control)
    case AppReadyRsp(status) => OnAppReadyRsp(ar, status)
    case Tick => OnTick(ar, now)
    case Abort(reason) => if ar.state.Idle? then (ar, []) else Aborting(ar, reason)
  }

  function NextDeadline(ar: Ar): Option<int> {
    if ar.activityDeadline.Some? && ar.appReadyDeadline.Some?
    then Some(Min(ar.activityDeadline.value, ar.appReadyDeadline.value))
    else if ar.activityDeadline.Some? then ar.activityDeadline
    else ar.appReadyDeadline
  }

  // --- what holds in every reachable state -----------------------------------------

  /** The state decides which deadline is armed and how many calls were placed. */
  predicate TimersMatch(ar: Ar) {
    && (ar.activityDeadline.Some? <==> ar.state.Connected?)
    && (ar.appReadyDeadline.Some? <==> ar.state.AppReadySent?)
    && (if ar.state.AppReadySent? then 1 <= ar.attempts <= APP_READY_MAX_ATTEMPTS else ar.attempts == 0)
  }

  /** Stored records belong to the AR and keep within the limits; the response kept for retransmission
      is the one of these parameters. */
  predicate ContextOk(ctx: Context, model: DeviceModel) {
    && ctx.connectRes == BuildConnectRes(ctx.params, model)
    && (forall r <- ctx.records :: r.arUuid == ctx.params.arUuid)
    && |ctx.records| <= MAX_RECORDS && DataBytes(ctx.records) <= MAX_RECORD_BYTES
  }

  predicate Inv(ar: Ar) {
    && HasContext(ar) && TimersMatch(ar)
    && (ar.ctx.Some? ==> ContextOk(ar.ctx.value, ar.model))
  }

  lemma ConnectKeepsInv(ar: Ar, req: ConnectReq, now: int)
    requires Inv(ar)
    ensures Inv(OnConnect(ar, req, now).0) && OnConnect(ar, req, now).0.model == ar.model
    decreases if ar.state.Idle? then 0 else 1
  {
    hide Validate, BuildConnectRes;
    if !ar.state.Idle? { ConnectKeepsInv(ToIdle(ar), req, now); }
  }

  lemma StepKeepsInv(ar: Ar, ev: Event, now: int)
    requires Inv(ar)
    ensures Inv(On(ar, ev, now).0) && On(ar, ev, now).0.model == ar.model
  {
    hide OnConnect, BuildConnectRes, BuildWriteRes, WriteControl, DataBytes;
    if ev.Connecting? { ConnectKeepsInv(ar, ev.req, now); }
  }

  // --- the moves of the machine -------------------------------------------------------

  predicate IsRequest(ev: Event) { ev.Connecting? || ev.Writing? || ev.PrmEnd? || ev.Release? }

  /** What one event can do, seen from its actions. */
  datatype Move =
    | Still                                             // nothing
    | Served(status: PnioStatus, blocks: Bytes)         // a response, the AR as it was but for its records
    | ComeUp(blocks: Bytes)                             // Idle to Connected
    | StartCalling(blocks: Bytes, call: Bytes)          // Connected to AppReadySent
    | Retry(call: Bytes)                                // AppReadySent, called again
    | Run                                               // AppReadySent to Data
    | GoDown(reason: AbortReason)                       // to Idle
    | Released(blocks: Bytes)                           // to Idle, answered
    | Replaced(status: PnioStatus)                      // to Idle, and the new Connect refused
    | Reborn(blocks: Bytes)                             // to Idle, and Connected again

  function ActionsOf(m: Move): seq<Action> {
    match m
    case Still => []
    case Served(status, blocks) => [Respond(status, blocks)]
    case ComeUp(blocks) => [Respond(OK, blocks), Notify(Connected, None)]
    case StartCalling(blocks, call) => [Respond(OK, blocks), CallController(call)]
    case Retry(call) => [CallController(call)]
    case Run => [Notify(Data, None)]
    case GoDown(reason) => [Notify(Idle, Some(reason))]
    case Released(blocks) => [Respond(OK, blocks), Notify(Idle, Some(ControllerRelease))]
    case Replaced(status) => [Notify(Idle, Some(ControllerReconnect)), Respond(status, [])]
    case Reborn(blocks) =>
      [Notify(Idle, Some(ControllerReconnect)), Respond(OK, blocks), Notify(Connected, None)]
  }

  predicate SameParams(ar: Ar, ar': Ar) {
    (ar.ctx.Some? <==> ar'.ctx.Some?) && (ar.ctx.Some? ==> ar.ctx.value.params == ar'.ctx.value.params)
  }

  /** The states a move leads between. */
  predicate Moves(m: Move, ar: Ar, ar': Ar)
    requires HasContext(ar')
  {
    match m
    case Still => ar' == ar
    case Served(_, _) => ar'.state == ar.state && SameParams(ar, ar') && ar'.attempts == ar.attempts
    case ComeUp(_) => ar.state.Idle? && ar'.state.Connected?
    case StartCalling(_, call) =>
      && ar.state.Connected? && ar'.state.AppReadySent? && SameParams(ar, ar') && ar'.attempts == 1
      && call == AppReadyCall(ar'.ctx.value.params)
    case Retry(call) =>
      && ar.state.AppReadySent? && ar'.state.AppReadySent? && SameParams(ar, ar')
      && ar'.attempts == ar.attempts + 1 && call == AppReadyCall(ar'.ctx.value.params)
    case Run => ar.state.AppReadySent? && ar'.state.Data? && SameParams(ar, ar')
    case GoDown(_) => !ar.state.Idle? && ar'.state.Idle?
    case Released(_) => !ar.state.Idle? && ar'.state.Idle?
    case Replaced(_) => !ar.state.Idle? && ar'.state.Idle?
    case Reborn(_) => !ar.state.Idle? && ar'.state.Connected?
  }

  predicate Answers(m: Move) { !(m.Still? || m.Retry? || m.Run? || m.GoDown?) }

  function ConnectMove(ar: Ar, req: ConnectReq, now: int): (m: Move)
    requires Inv(ar)
  {
    var actions := OnConnect(ar, req, now).1;
    if |actions| == 1 && actions[0].Respond? then Served(actions[0].status, actions[0].blocks)
    else if |actions| == 2 && actions[0].Respond? then ComeUp(actions[0].blocks)
    else if |actions| == 2 && actions[1].Respond? then Replaced(actions[1].status)
    else if |actions| == 3 && actions[1].Respond? then Reborn(actions[1].blocks)
    else Still
  }

  lemma ConnectMoves(ar: Ar, req: ConnectReq, now: int)
    requires Inv(ar)
    ensures var m := ConnectMove(ar, req, now);
      var (ar', actions) := OnConnect(ar, req, now);
      HasContext(ar') && Answers(m) && actions == ActionsOf(m) && Moves(m, ar, ar')
  {
    hide Validate, BuildConnectRes, ContextOk;
    assert OnConnect(ToIdle(ar), req, now) == Establish(ToIdle(ar), req, now);
  }

  /** Every event makes one of the moves; a request one that answers, anything else one that does not. */
  lemma StepMoves(ar: Ar, ev: Event, now: int) returns (m: Move)
    requires Inv(ar)
    ensures var (ar', actions) := On(ar, ev, now);
      HasContext(ar') && actions == ActionsOf(m) && Moves(m, ar, ar')
    ensures Answers(m) <==> IsRequest(ev)
    ensures ev.Connecting? ==> m.Served? || m.ComeUp? || m.Replaced? || m.Reborn?
    ensures m.ComeUp? || m.Replaced? || m.Reborn? ==> ev.Connecting?
    ensures m.Retry? ==> ev.Tick?
    ensures ev.Abort? ==> m == if ar.state.Idle? then Still else GoDown(ev.reason)
  {
    hide OnConnect, ConnectMove, BuildConnectRes, BuildWriteRes, WriteControl, AppReadyCall, ExceedsCap, ContextOk;
    var (ar', actions) := On(ar, ev, now);
    if ev.Connecting? {
      ConnectMoves(ar, ev.req, now);
      ConnectMoveKinds(ar, ev.req, now);
      m := ConnectMove(ar, ev.req, now);
    } else if actions == [] {
      m := Still;
    } else if |actions| == 1 {
      match actions[0]
      case Respond(status, blocks) => m := Served(status, blocks);
      case CallController(call) => m := Retry(call);
      case Notify(state, reason) => m := if state.Data? then Run else GoDown(reason.value);
    } else {
      m := if actions[1].CallController? then StartCalling(actions[0].blocks, actions[1].blocks)
           else Released(actions[0].blocks);
    }
  }

  lemma ConnectMoveKinds(ar: Ar, req: ConnectReq, now: int)
    requires Inv(ar)
    ensures var m := ConnectMove(ar, req, now); m.Served? || m.ComeUp? || m.Replaced? || m.Reborn? || m.Still?
  {
    hide OnConnect;
  }

  // --- every request is answered once ------------------------------------------------

  function Responses(actions: seq<Action>): nat {
    if actions == [] then 0 else (if actions[0].Respond? then 1 else 0) + Responses(actions[1..])
  }

  /** Exactly one response to each request and none to anything else; a reconnect answers after
      reporting the old AR gone. */
  lemma OneResponse(ar: Ar, ev: Event, now: int)
    requires Inv(ar)
    ensures Responses(On(ar, ev, now).1) == if IsRequest(ev) then 1 else 0
  {
    hide On;
    var m := StepMoves(ar, ev, now);
    MoveResponses(m);
  }

  lemma MoveResponses(m: Move)
    ensures Responses(ActionsOf(m)) == if Answers(m) then 1 else 0
  {
    var actions := ActionsOf(m);
    if |actions| > 1 {
      var rest := actions[1..];
      var last := rest[1..];
      assert Responses(last) == if last != [] && last[0].Respond? then 1 else 0;
      assert Responses(rest) == (if rest[0].Respond? then 1 else 0) + Responses(last);
    }
  }

  // --- runs --------------------------------------------------------------------------

  datatype Run = Start | Then(before: Run, ev: Event, now: int)

  function After(model: DeviceModel, run: Run): (ar: Ar)
    ensures Inv(ar) && ar.model == model
  {
    match run
    case Start => NewAr(model)
    case Then(before, ev, now) =>
      var ar := After(model, before);
      StepKeepsInv(ar, ev, now);
      On(ar, ev, now).0
  }

  /** The actions of the last event. */
  function Last(model: DeviceModel, run: Run): seq<Action> {
    match run
    case Start => []
    case Then(before, ev, now) => On(After(model, before), ev, now).1
  }

  /** What an observer of the actions can tell: where the AR is in its life, and the calls placed
      since it was established. */
  datatype Phase = Down | Up | Cyclic | Broken
  datatype Observed = Observed(phase: Phase, calls: seq<Bytes>)

  function Advance(p: Phase, s: ArState): Phase {
    match (p, s)
    case (Down, Connected) => Up
    case (Up, Data) => Cyclic
    case (Up, Idle) => Down
    case (Cyclic, Idle) => Down
    case _ => Broken
  }

  function Observe(o: Observed, a: Action): Observed {
    match a
    case Respond(_, _) => o
    case CallController(blocks) => o.(calls := o.calls + [blocks])
    case Notify(s, _) => Observed(Advance(o.phase, s), if s.Connected? then [] else o.calls)
  }

  function ObserveAll(o: Observed, actions: seq<Action>): Observed
    decreases |actions|
  {
    if actions == [] then o else ObserveAll(Observe(o, actions[0]), actions[1..])
  }

  function Seen(model: DeviceModel, run: Run): Observed {
    match run
    case Start => Observed(Down, [])
    case Then(before, _, _) => ObserveAll(Seen(model, before), Last(model, run))
  }

  function PhaseOf(s: ArState): Phase {
    match s case Idle => Down case Connected => Up case AppReadySent => Up case Data => Cyclic
  }

  /** The calls placed for the current AR: none before PrmEnd, then one per attempt, all identical. */
  predicate CallsFit(ar: Ar, calls: seq<Bytes>) {
    && |calls| <= APP_READY_MAX_ATTEMPTS
    && (ar.state.Connected? ==> calls == [])
    && (ar.state.AppReadySent? ==> |calls| == ar.attempts)
    && (ar.state.Data? ==> |calls| >= 1)
    && (ar.ctx.Some? ==> forall c <- calls :: c == AppReadyCall(ar.ctx.value.params))
    && forall c, d | c in calls && d in calls :: c == d
  }

  lemma ObserveMove(o: Observed, m: Move)
    ensures ObserveAll(o, ActionsOf(m))
         == match m
            case Still => o
            case Served(_, _) => o
            case ComeUp(_) => Observed(Advance(o.phase, Connected), [])
            case StartCalling(_, call) => o.(calls := o.calls + [call])
            case Retry(call) => o.(calls := o.calls + [call])
            case Run => o.(phase := Advance(o.phase, Data))
            case GoDown(_) => o.(phase := Advance(o.phase, Idle))
            case Released(_) => o.(phase := Advance(o.phase, Idle))
            case Replaced(_) => o.(phase := Advance(o.phase, Idle))
            case Reborn(_) => Observed(Advance(Advance(o.phase, Idle), Connected), [])
  {
    var actions := ActionsOf(m);
    if |actions| > 0 {
      var rest, o1 := actions[1..], Observe(o, actions[0]);
      if rest != [] {
        var rest2, o2 := rest[1..], Observe(o1, rest[0]);
        assert rest2 != [] ==> rest2[1..] == [];
        assert ObserveAll(o2, rest2) == if rest2 == [] then o2 else Observe(o2, rest2[0]);
        assert ObserveAll(o1, rest) == ObserveAll(o2, rest2);
      }
    }
  }

  lemma StepObserved(ar: Ar, ev: Event, now: int, o: Observed)
    requires Inv(ar) && o.phase == PhaseOf(ar.state) && CallsFit(ar, o.calls)
    ensures var (ar', actions) := On(ar, ev, now);
      var o' := ObserveAll(o, actions);
      o'.phase == PhaseOf(ar'.state) && CallsFit(ar', o'.calls)
  {
    hide On, AppReadyCall, ContextOk;
    StepKeepsInv(ar, ev, now);
    var m := StepMoves(ar, ev, now);
    ObserveMove(o, m);
  }

  /** Over every run: notifications follow (Connected Data? Idle)*, in step with the state, and an AR
      places at most three ApplicationReady calls, all identical, as many as its attempts. */
  lemma {:induction false} Lifecycle(model: DeviceModel, run: Run)
    ensures Seen(model, run).phase == PhaseOf(After(model, run).state)
    ensures CallsFit(After(model, run), Seen(model, run).calls)
  {
    hide On;
    if run.Then? {
      Lifecycle(model, run.before);
      StepObserved(After(model, run.before), run.ev, run.now, Seen(model, run.before));
    }
  }

  // --- the notification grammar ---------------------------------------------------------

  /** The notified states, in order. */
  function Notified(actions: seq<Action>): seq<ArState> {
    if actions == [] then []
    else (if actions[0].Notify? then [actions[0].state] else []) + Notified(actions[1..])
  }

  function Trace(model: DeviceModel, run: Run): seq<ArState> {
    match run
    case Start => []
    case Then(before, _, _) => Trace(model, before) + Notified(Last(model, run))
  }

  /** A prefix of (Connected Data? Idle)*. */
  predicate Lives(trace: seq<ArState>) {
    trace == []
    || (trace[0] == Connected
        && (|trace| == 1
            || (trace[1] == Idle && Lives(trace[2..]))
            || (trace[1] == Data && (|trace| == 2 || (trace[2] == Idle && Lives(trace[3..]))))))
  }

  function PhaseAfter(p: Phase, trace: seq<ArState>): Phase
    decreases |trace|
  {
    if trace == [] then p else PhaseAfter(Advance(p, trace[0]), trace[1..])
  }

  lemma {:induction false} BrokenStays(trace: seq<ArState>)
    ensures PhaseAfter(Broken, trace) == Broken
  {
    if trace != [] { BrokenStays(trace[1..]); }
  }

  /** The phases read exactly that grammar. */
  lemma {:induction false} PhasesReadLives(trace: seq<ArState>)
    ensures Lives(trace) <==> PhaseAfter(Down, trace) != Broken
    decreases |trace|
  {
    if trace != [] {
      BrokenStays(trace[1..]);
      if trace[0] == Connected && |trace| > 1 {
        var rest := trace[1..];
        assert rest[1..] == trace[2..];
        BrokenStays(trace[2..]);
        if trace[1] == Data && |trace| > 2 {
          var last := trace[2..];
          assert last[1..] == trace[3..];
          BrokenStays(trace[3..]);
          PhasesReadLives(trace[3..]);
          assert PhaseAfter(Down, trace) == PhaseAfter(Up, rest) == PhaseAfter(Cyclic, last);
        } else {
          PhasesReadLives(trace[2..]);
          assert PhaseAfter(Down, trace) == PhaseAfter(Up, rest) == PhaseAfter(Advance(Up, trace[1]), trace[2..]);
        }
      }
    }
  }

  lemma {:induction false} PhaseConcat(p: Phase, a: seq<ArState>, b: seq<ArState>)
    ensures PhaseAfter(p, a + b) == PhaseAfter(PhaseAfter(p, a), b)
    decreases |a|
  {
    if a == [] {
      assert a + b == b;
    } else {
      assert (a + b)[1..] == a[1..] + b;
      PhaseConcat(Advance(p, a[0]), a[1..], b);
    }
  }

  lemma {:induction false} ObservedPhase(o: Observed, actions: seq<Action>)
    ensures ObserveAll(o, actions).phase == PhaseAfter(o.phase, Notified(actions))
    decreases |actions|
  {
    if actions != [] {
      ObservedPhase(Observe(o, actions[0]), actions[1..]);
      if actions[0].Notify? {
        var rest := Notified(actions[1..]);
        assert ([actions[0].state] + rest)[1..] == rest;
      } else {
        assert [] + Notified(actions[1..]) == Notified(actions[1..]);
      }
    }
  }

  lemma {:induction false} TracePhase(model: DeviceModel, run: Run)
    ensures PhaseAfter(Down, Trace(model, run)) == Seen(model, run).phase
  {
    hide On;
    if run.Then? {
      TracePhase(model, run.before);
      ObservedPhase(Seen(model, run.before), Last(model, run));
      PhaseConcat(Down, Trace(model, run.before), Notified(Last(model, run)));
    }
  }

  /** Over every run the notified states form a prefix of (Connected Data? Idle)*. */
  lemma NotifyGrammar(model: DeviceModel, run: Run)
    ensures Lives(Trace(model, run))
  {
    Lifecycle(model, run);
    TracePhase(model, run);
    PhasesReadLives(Trace(model, run));
  }

  // --- the context, from what was observed ----------------------------------------------------

  /** The Connect that established the AR, when, and the records of the writes answered OK since. */
  datatype Life = Life(req: ConnectReq, at: int, records: seq<Record>)

  predicate Established(actions: seq<Action>) { Notify(Connected, None) in actions }

  predicate Answered(actions: seq<Action>) { exists a <- actions :: a.Respond? && a.status == OK }

  predicate WentDown(actions: seq<Action>) { exists a <- actions :: a.Notify? && a.state.Idle? }

  function Live(life: Option<Life>, ev: Event, now: int, actions: seq<Action>): Option<Life> {
    if Established(actions) && ev.Connecting? then Some(Life(ev.req, now, []))
    else if WentDown(actions) then None
    else if ev.Writing? && Answered(actions) && life.Some?
    then Some(life.value.(records := life.value.records + ev.records))
    else life
  }

  function LifeOf(model: DeviceModel, run: Run): Option<Life> {
    match run
    case Start => None
    case Then(before, ev, now) => Live(LifeOf(model, before), ev, now, Last(model, run))
  }

  predicate Explains(life: Option<Life>, ar: Ar) {
    match life
    case None => ar.ctx.None?
    case Some(l) =>
      && Validate(l.req, ar.model).Ok?
      && var params := Validate(l.req, ar.model).value;
         ar.ctx == Some(Context(params, l.records, l.at, BuildConnectRes(params, ar.model)))
  }

  lemma ConnectExplained(ar: Ar, req: ConnectReq, now: int, life: Option<Life>)
    requires Inv(ar) && Explains(life, ar)
    ensures var (ar', actions) := OnConnect(ar, req, now);
      Explains(Live(life, Connecting(req), now, actions), ar')
  {
    hide Validate, BuildConnectRes, ContextOk, TimersMatch;
    var (ar', actions) := OnConnect(ar, req, now);
    assert OnConnect(ToIdle(ar), req, now) == Establish(ToIdle(ar), req, now);
    if Validate(req, ar.model).Ok? && |actions| >= 2 {
      assert actions[|actions| - 1] == Notify(Connected, None);
    } else if |actions| == 2 {
      assert actions[0] == Notify(Idle, Some(ControllerReconnect));
    }
  }

  lemma StepExplained(ar: Ar, ev: Event, now: int, life: Option<Life>)
    requires Inv(ar) && Explains(life, ar)
    ensures var (ar', actions) := On(ar, ev, now); Explains(Live(life, ev, now, actions), ar')
  {
    hide OnConnect, Validate, BuildConnectRes, BuildWriteRes, WriteControl, AppReadyCall, ExceedsCap,
         ContextOk, TimersMatch;
    var (ar', actions) := On(ar, ev, now);
    if ev.Connecting? {
      ConnectExplained(ar, ev.req, now, life);
    } else if |actions| > 0 {
      assert actions[0] in actions;
      if |actions| == 2 { assert actions[1] in actions; }
    }
  }

  /** Over every run the context is exactly: the parameters negotiated by the Connect that was
      accepted last, its response, and the records of the writes answered OK since, in order. */
  lemma {:induction false} ContextExplained(model: DeviceModel, run: Run)
    ensures Explains(LifeOf(model, run), After(model, run))
  {
    hide On;
    if run.Then? {
      hide Explains;
      ContextExplained(model, run.before);
      StepExplained(After(model, run.before), run.ev, run.now, LifeOf(model, run.before));
    }
  }

  // --- no half-open AR outlives its timers ------------------------------------------------------

  /** Ticks, each no earlier than the deadline then armed. */
  predicate Expiring(ar: Ar, ticks: seq<int>)
    requires Inv(ar)
    decreases |ticks|
  {
    ticks == []
    || ar.state.Idle? || ar.state.Data?
    || (&& Due(NextDeadline(ar), ticks[0])
        && (StepKeepsInv(ar, Tick, ticks[0]); Expiring(On(ar, Tick, ticks[0]).0, ticks[1..])))
  }

  function Ticked(ar: Ar, ticks: seq<int>): Ar
    requires Inv(ar)
    decreases |ticks|
  {
    if ticks == [] then ar
    else
      StepKeepsInv(ar, Tick, ticks[0]);
      Ticked(On(ar, Tick, ticks[0]).0, ticks[1..])
  }

  /** Expired deadlines until an AR that hears nothing more is given up. */
  function TicksLeft(ar: Ar): nat
    requires Inv(ar)
  {
    match ar.state
    case Idle => 0
    case Data => 0
    case Connected => 1
    case AppReadySent => APP_READY_MAX_ATTEMPTS + 1 - ar.attempts
  }

  /** With no further input, a Connected or AppReadySent AR returns to `Idle` after exactly
      `TicksLeft` expired deadlines, and not before. */
  lemma {:induction false} HalfOpenExpires(ar: Ar, ticks: seq<int>)
    requires Inv(ar) && !ar.state.Data? && Expiring(ar, ticks)
    ensures Ticked(ar, ticks).state.Idle? <==> |ticks| >= TicksLeft(ar)
    decreases |ticks|
  {
    hide AppReadyCall, ContextOk;
    if ticks != [] {
      StepKeepsInv(ar, Tick, ticks[0]);
      var ar' := On(ar, Tick, ticks[0]).0;
      if ar.state.Idle? {
        assert ar' == ar;
        assert Expiring(ar', ticks[1..]);
      }
      HalfOpenExpires(ar', ticks[1..]);
    }
  }
}
