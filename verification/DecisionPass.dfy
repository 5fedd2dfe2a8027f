// One decision pass, from interpretation to dispatch, against remote peers that may answer anything.
module DecisionPass {
  import opened Models
  import opened PolicyFilter
  import opened Evaluator
  import opened Selector
  import PlanCompiler
  import Text

  // ---------------------------------------------------------------- what crosses the wire

  datatype SubmitRequest = SubmitRequest(
    decisionId: Uuid, spec: PlanCompiler.Node, payloadHash: string, goal: Option<Uuid>,
    stateVersion: string, predicted: real, cls: IntentClass, entityClass: string)

  datatype Verdict = Verdict(verdict: string, token: Option<string>, ttl: int, auditRef: Uuid)

  datatype SubmitReply = Answer(v: Verdict) | SubmitError(message: string)

  datatype DispatchRequest = DispatchRequest(
    executionRef: Uuid, decisionId: Uuid, spec: PlanCompiler.Node, token: string, ttl: int,
    simulation: Option<string>, goal: Option<Uuid>)

  /** `error` is the error text of a rejection, absent when the body cannot be read. */
  datatype RunnerReply = Status(code: int, error: Option<string>) | ConnectError | OtherError

  datatype StubRequest = StubRequest(executionRef: Uuid, decisionId: Uuid, token: string, goal: Option<Uuid>)

  datatype Event =
    | ContextRead(manifest: Option<Manifest>)
    | Submitted(request: SubmitRequest, reply: SubmitReply)
    | Dispatched(order: DispatchRequest, answer: RunnerReply)
    | StubPosted(stub: StubRequest, ok: bool)
    | Recorded(outcome: string)

  /** Everything a pass did so far, latest event outermost. */
  datatype Log = Start | Then(before: Log, event: Event)

  datatype InterpretReply = Understood(request: Request) | Unclear | Refused

  /** The peers: each reply may depend on everything that happened before.
      An absent reply is a failed call. */
  datatype World = World(
    interpret: InterpretReply,
    context: Log -> Option<Manifest>,
    weights: Option<WeightConfig>,
    generate: Option<(seq<PlanOption>, GenerationPath)>,
    dryRuns: Option<seq<DryRun>>,
    project: (PlanOption, Manifest) -> bool,
    submit: (Log, SubmitRequest) -> SubmitReply,
    runner: (Log, DispatchRequest) -> RunnerReply,
    stub: (Log, StubRequest) -> bool)

  /** Identifiers drawn during the pass. */
  datatype Ids = Ids(decision: Uuid, hold: Uuid, firstRef: Uuid, secondRef: Uuid)

  datatype PassInput = PassInput(role: ActorRole, goal: Option<Uuid>, simulation: Option<string>, ids: Ids)

  /** `Crash` is any exception that is neither an HTTP error nor a request for clarification. */
  datatype Outcome =
    | Executing(decisionId: Uuid, executionRef: Uuid, auditRef: Uuid)
    | Escalated(hold: Uuid)
    | Http(code: int)
    | Clarify
    | Crash

  /** A chosen and compiled option, ready for its verdict. */
  datatype Job = Job(decision: DecisionRecord, request: Request, node: PlanCompiler.Node, payloadHash: string)

  datatype Prepared = Exit(outcome: Outcome, log: Log) | Ready(job: Job, log: Log)

  datatype Done = Done(outcome: Outcome, log: Log, version: string)

  predicate Stale(r: SubmitReply) {
    r.SubmitError? && Text.Contains(r.message, "STALE_SESSION")
  }

  predicate Expired(r: RunnerReply) {
    r.Status? && r.code == 401 && r.error.Some? && Text.Contains(r.error.value, "TOKEN_EXPIRED")
  }

  predicate Taken(r: RunnerReply) {
    r.ConnectError? || (r.Status? && 200 <= r.code <= 299)
  }

  // ---------------------------------------------------------------- up to the compiled option

  /** `next(...)`: the first candidate with the selected id. */
  function FirstWithId(cs: seq<Candidate>, id: Option<Uuid>): (c: Option<Candidate>)
    ensures c.Some? ==> c.value in cs && Some(c.value.0.id) == id
    ensures c.None? ==> forall x :: x in cs ==> Some(x.0.id) != id
  {
    if cs == [] then None else if Some(cs[0].0.id) == id then Some(cs[0]) else FirstWithId(cs[1..], id)
  }

  function SettingOf(w: World, inp: PassInput, req: Request, m: Manifest): Setting {
    Setting(req, m, inp.role, w.weights)
  }

  /** The records of the candidates, scored and rescored; `None` when scoring raises. */
  function RecordsOf(w: World, inp: PassInput, req: Request, m: Manifest, cs: seq<Candidate>): Option<seq<Evaluated>> {
    var weights := ResolveWeights(w.weights, req.cls);
    if weights.None? then None
    else
      var scored := ScoreAll(cs, weights.value, SettingOf(w, inp, req, m));
      var project := w.project;
      if scored.None? then None else Some(Rescored(scored.value, cs, o => project(o, m), weights.value))
  }

  /** Scoring, selection and compilation of the survivors. */
  function Choose(w: World, inp: PassInput, version: string, req: Request, m: Manifest, n: nat,
                  path: GenerationPath, cs: seq<Candidate>, log: Log): Prepared
  {
    match RecordsOf(w, inp, req, m, cs)
    case None => Exit(Crash, log)
    case Some(es) => Compiled(inp, req, cs, SelectDecision(es, n, n - |cs|, path, version), log)
  }

  function Compiled(inp: PassInput, req: Request, cs: seq<Candidate>, d: DecisionRecord, log: Log): Prepared {
    if d.escalated then Exit(Escalated(inp.ids.hold), Then(log, Recorded("ESCALATED")))
    else
      var chosen := FirstWithId(cs, d.selected);
      if chosen.None? then Exit(Http(500), Then(log, Recorded("ERROR")))
      else
        var nodes := PlanCompiler.Compile(chosen.value.0);
        if nodes.None? then Exit(Http(422), Then(log, Recorded("ERROR")))
        else if nodes.value == [] then Exit(Http(422), log)
        else Ready(Job(d, req, nodes.value[0], chosen.value.0.payloadHash), log)
  }

  function Prepare(w: World, inp: PassInput, version: string): Prepared {
    match w.interpret
    case Unclear => Exit(Clarify, Then(Start, Recorded("CLARIFICATION_REQUIRED")))
    case Refused => Exit(Crash, Start)
    case Understood(req) =>
      var m := w.context(Start);
      var log := Then(Start, ContextRead(m));
      if m.None? then Exit(Http(503), Then(log, Recorded("ERROR")))
      else if w.generate.None? || w.dryRuns.None? then Exit(Crash, log)
      else
        var (options, path) := w.generate.value;
        match Filtered(options, w.dryRuns.value)
        case Unknown => Exit(Crash, log)
        case AllBlocked => Exit(Escalated(inp.ids.hold), Then(log, Recorded("ESCALATED")))
        case Survivors(cs) => Choose(w, inp, version, req, m.value, |options|, path, cs, log)
  }

  // ---------------------------------------------------------------- verdict and dispatch

  function SubmissionOf(job: Job, inp: PassInput, version: string): SubmitRequest {
    SubmitRequest(inp.ids.decision, job.node, job.payloadHash, inp.goal, version,
                  Predicted(job.decision), job.request.cls, job.request.entityClass)
  }

  function OrderOf(job: Job, inp: PassInput, token: string, ttl: int, ref: Uuid): DispatchRequest {
    DispatchRequest(ref, inp.ids.decision, job.node, token, ttl, inp.simulation, inp.goal)
  }

  function StubOf(o: DispatchRequest): StubRequest {
    StubRequest(o.executionRef, o.decisionId, o.token, o.goal)
  }

  datatype Handoff = Accepted | TokenExpired | Rejected

  /** One hand-off to the runner; an unreachable runner counts as accepted after one stub outcome. */
  function HandOff(w: World, inp: PassInput, job: Job, v: Verdict, ref: Uuid, log: Log): (Handoff, Log) {
    if v.token.None? || v.token.value == "" then (Rejected, log)
    else
      var order := OrderOf(job, inp, v.token.value, v.ttl, ref);
      var r := w.runner(log, order);
      var sent := Then(log, Dispatched(order, r));
      match r
      case Status(code, _) =>
        (if Expired(r) then TokenExpired else if Taken(r) then Accepted else Rejected, sent)
      case ConnectError => (Accepted, Then(sent, StubPosted(StubOf(order), w.stub(sent, StubOf(order)))))
      case OtherError => (Rejected, sent)
  }

  function Executed(inp: PassInput, v: Verdict, ref: Uuid, log: Log, version: string): Done {
    Done(Executing(inp.ids.decision, ref, v.auditRef), Then(log, Recorded("EXECUTING")), version)
  }

  /** After an expired token: one more submission, then one more hand-off. */
  function Renew(w: World, inp: PassInput, job: Job, version: string, log: Log): Done {
    var req := SubmissionOf(job, inp, version);
    var r := w.submit(log, req);
    var asked := Then(log, Submitted(req, r));
    if r.SubmitError? then Done(Crash, asked, version)
    else
      var (h, sent) := HandOff(w, inp, job, r.v, inp.ids.secondRef, asked);
      if h == Accepted then Executed(inp, r.v, inp.ids.secondRef, sent, version) else Done(Crash, sent, version)
  }

  function Conclude(w: World, inp: PassInput, job: Job, v: Verdict, version: string, log: Log): Done {
    if v.verdict == "BLOCK" then Done(Escalated(inp.ids.hold), Then(log, Recorded("ESCALATED")), version)
    else
      var (h, sent) := HandOff(w, inp, job, v, inp.ids.firstRef, log);
      match h
      case Accepted => Executed(inp, v, inp.ids.firstRef, sent, version)
      case TokenExpired => Renew(w, inp, job, version, sent)
      case Rejected => Done(Crash, sent, version)
  }

  /** The retry after a stale state version: reread the context, take over its version, submit again. */
  function Retry(w: World, inp: PassInput, job: Job, version: string, log: Log): Done {
    var m := w.context(log);
    var reread := Then(log, ContextRead(m));
    if m.None? then Done(Http(409), Then(reread, Recorded("ERROR")), version)
    else
      var renewed := m.value.stateVersion;
      var req := SubmissionOf(job, inp, renewed);
      var r := w.submit(reread, req);
      var asked := Then(reread, Submitted(req, r));
      if r.SubmitError? then Done(Http(409), Then(asked, Recorded("ERROR")), renewed)
      else Conclude(w, inp, job, r.v, renewed, asked)
  }

  function Finish(w: World, inp: PassInput, job: Job, version: string, log: Log): Done {
    var req := SubmissionOf(job, inp, version);
    var r := w.submit(log, req);
    var asked := Then(log, Submitted(req, r));
    if r.Answer? then Conclude(w, inp, job, r.v, version, asked)
    else if Stale(r) then Retry(w, inp, job, version, asked)
    else Done(Http(502), Then(asked, Recorded("ERROR")), version)
  }

  function Pass(w: World, inp: PassInput, version: string): Done {
    match Prepare(w, inp, version)
    case Exit(outcome, log) => Done(outcome, log, version)
    case Ready(job, log) => Finish(w, inp, job, version, log)
  }

  // ---------------------------------------------------------------- the pass as it runs

  /** The session record; of its fields only the state version is ever assigned. */
  class Session {
    var stateVersion: string

    constructor (stateVersion: string)
      ensures this.stateVersion == stateVersion
    {
      this.stateVersion := stateVersion;
    }
  }

  method DispatchExecution(w: World, inp: PassInput, job: Job, v: Verdict, ref: Uuid, before: Log)
    returns (h: Handoff, log: Log)
    ensures (h, log) == HandOff(w, inp, job, v, ref, before)
  {
    log := before;
    if v.token.None? || v.token.value == "" {
      return Rejected, log;
    }
    var order := OrderOf(job, inp, v.token.value, v.ttl, ref);
    var r := w.runner(log, order);
    log := Then(log, Dispatched(order, r));
    if r.Status? {
      if r.code == 401 {
        if r.error.Some? && Text.Contains(r.error.value, "TOKEN_EXPIRED") {
          return TokenExpired, log;
        }
        return Rejected, log;
      }
      h := if 200 <= r.code <= 299 then Accepted else Rejected;
    } else if r.ConnectError? {
      var ok := w.stub(log, StubOf(order));
      log := Then(log, StubPosted(StubOf(order), ok));
      h := Accepted;
    } else {
      h := Rejected;
    }
  }

  /** Interpretation to compilation. */
  method PrepareJob(w: World, inp: PassInput, version: string) returns (p: Prepared)
    ensures p == Prepare(w, inp, version)
  {
    if w.interpret.Unclear? {
      return Exit(Clarify, Then(Start, Recorded("CLARIFICATION_REQUIRED")));
    } else if w.interpret.Refused? {
      return Exit(Crash, Start);
    }
    var req := w.interpret.request;
    var m := w.context(Start);
    var log := Then(Start, ContextRead(m));
    if m.None? {
      return Exit(Http(503), Then(log, Recorded("ERROR")));
    }
    if w.generate.None? || w.dryRuns.None? {
      return Exit(Crash, log);
    }
    var options, path := w.generate.value.0, w.generate.value.1;
    var filtered := Filter(options, w.dryRuns.value);
    if filtered.Unknown? {
      return Exit(Crash, log);
    } else if filtered.AllBlocked? {
      return Exit(Escalated(inp.ids.hold), Then(log, Recorded("ESCALATED")));
    }
    p := ChooseJob(w, inp, version, req, m.value, |options|, path, filtered.kept, log);
  }

  method ChooseJob(w: World, inp: PassInput, version: string, req: Request, m: Manifest, n: nat,
                   path: GenerationPath, cs: seq<Candidate>, log: Log) returns (p: Prepared)
    ensures p == Choose(w, inp, version, req, m, n, path, cs, log)
  {
    var evaluated := Score(cs, SettingOf(w, inp, req, m));
    if evaluated.None? {
      return Exit(Crash, log);
    }
    var weights := ResolveWeights(w.weights, req.cls).value;
    var project := w.project;
    var rescored := SimulateAndRescore(evaluated.value, cs, o => project(o, m), weights);
    var d := SelectDecision(rescored, n, n - |cs|, path, version);
    if d.escalated {
      return Exit(Escalated(inp.ids.hold), Then(log, Recorded("ESCALATED")));
    }
    var chosen := FirstWithId(cs, d.selected);
    if chosen.None? {
      return Exit(Http(500), Then(log, Recorded("ERROR")));
    }
    var nodes := PlanCompiler.Compile(chosen.value.0);
    if nodes.None? {
      return Exit(Http(422), Then(log, Recorded("ERROR")));
    }
    return Ready(Job(d, req, nodes.value[0], chosen.value.0.payloadHash), log);
  }

  method RunPipelinePass(w: World, inp: PassInput, session: Session) returns (outcome: Outcome, log: Log)
    modifies session
    ensures Done(outcome, log, session.stateVersion) == Pass(w, inp, old(session.stateVersion))
  {
    var prepared := PrepareJob(w, inp, session.stateVersion);
    if prepared.Exit? {
      return prepared.outcome, prepared.log;
    }
    var job := prepared.job;
    log := prepared.log;
    var req := SubmissionOf(job, inp, session.stateVersion);
    var reply := w.submit(log, req);
    log := Then(log, Submitted(req, reply));
    if reply.SubmitError? {
      if !Text.Contains(reply.message, "STALE_SESSION") {
        return Http(502), Then(log, Recorded("ERROR"));
      }
      var m := w.context(log);
      log := Then(log, ContextRead(m));
      if m.None? {
        return Http(409), Then(log, Recorded("ERROR"));
      }
      session.stateVersion := m.value.stateVersion;
      req := SubmissionOf(job, inp, session.stateVersion);
      reply := w.submit(log, req);
      log := Then(log, Submitted(req, reply));
      if reply.SubmitError? {
        return Http(409), Then(log, Recorded("ERROR"));
      }
    }
    var verdict := reply.v;
    if verdict.verdict == "BLOCK" {
      return Escalated(inp.ids.hold), Then(log, Recorded("ESCALATED"));
    }
    var ref := inp.ids.firstRef;
    var h;
    h, log := DispatchExecution(w, inp, job, verdict, ref, log);
    if h == TokenExpired {
      req := SubmissionOf(job, inp, session.stateVersion);
      reply := w.submit(log, req);
      log := Then(log, Submitted(req, reply));
      if reply.SubmitError? {
        return Crash, log;
      }
      verdict := reply.v;
      ref := inp.ids.secondRef;
      h, log := DispatchExecution(w, inp, job, verdict, ref, log);
    }
    if h != Accepted {
      return Crash, log;
    }
    return Executing(inp.ids.decision, ref, verdict.auditRef), Then(log, Recorded("EXECUTING"));
  }
}
