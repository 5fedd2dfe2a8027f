// What every pass keeps, for every behaviour of the peers.
module PassProtocol {
  import opened Models
  import opened PolicyFilter
  import opened Selector
  import opened DecisionPass
  import Text

  // ---------------------------------------------------------------- reading a log

  function Submissions(l: Log): nat {
    if l.Start? then 0 else Submissions(l.before) + (if l.event.Submitted? then 1 else 0)
  }

  function Dispatches(l: Log): nat {
    if l.Start? then 0 else Dispatches(l.before) + (if l.event.Dispatched? then 1 else 0)
  }

  function Stubs(l: Log): nat {
    if l.Start? then 0 else Stubs(l.before) + (if l.event.StubPosted? then 1 else 0)
  }

  function Labels(l: Log): seq<string> {
    if l.Start? then [] else Labels(l.before) + (if l.event.Recorded? then [l.event.outcome] else [])
  }

  /** The latest submission and the latest dispatch. */
  function LastSubmitted(l: Log): Option<Event> {
    if l.Start? then None else if l.event.Submitted? then Some(l.event) else LastSubmitted(l.before)
  }

  function LastDispatched(l: Log): Option<Event> {
    if l.Start? then None else if l.event.Dispatched? then Some(l.event) else LastDispatched(l.before)
  }

  function FirstSubmitted(l: Log): Option<Event> {
    if l.Start? then None
    else if FirstSubmitted(l.before).Some? then FirstSubmitted(l.before)
    else if l.event.Submitted? then Some(l.event) else None
  }

  /** The replies the protocol reacts to, as they look on the wire. */
  predicate SaysStale(r: SubmitReply) {
    r.SubmitError? && Text.Contains(r.message, "STALE_SESSION")
  }

  predicate SaysExpired(r: RunnerReply) {
    r.Status? && r.code == 401 && r.error.Some? && Text.Contains(r.error.value, "TOKEN_EXPIRED")
  }

  predicate SaysTaken(r: RunnerReply) {
    r == ConnectError || (r.Status? && 200 <= r.code < 300)
  }

  predicate EndsStale(l: Log) {
    l.Then? && l.event.Submitted? && SaysStale(l.event.reply)
  }

  predicate EndsExpired(l: Log) {
    l.Then? && l.event.Dispatched? && SaysExpired(l.event.answer)
  }

  /** The rules of the protocol: what may happen right after the events of `p`. */
  predicate Permitted(p: Log, e: Event) {
    match e
    case ContextRead(_) =>
      // at the start, or once to replace a stale version
      p.Start? || (EndsStale(p) && Submissions(p) == 1 && Dispatches(p) == 0)
    case Submitted(req, _) =>
      // first; or with the version just reread after a stale failure; or for a new token
      || Submissions(p) == 0
      || (p.Then? && p.event.ContextRead? && p.event.manifest.Some? && EndsStale(p.before)
          && Submissions(p) == 1 && Dispatches(p) == 0 && req.stateVersion == p.event.manifest.value.stateVersion)
      || (EndsExpired(p) && Dispatches(p) == 1)
    case Dispatched(order, _) =>
      // only with the non-empty token of the verdict just received
      && p.Then? && p.event.Submitted? && p.event.reply.Answer?
      && p.event.reply.v.token == Some(order.token) && order.token != "" && order.ttl == p.event.reply.v.ttl
      // first, and not after a block; or once more after an expiry
      && ((Dispatches(p) == 0 && p.event.reply.v.verdict != "BLOCK") || (Dispatches(p) == 1 && EndsExpired(p.before)))
    case StubPosted(stub, _) =>
      // for the order the runner could not be reached with, and about that very order
      && p.Then? && p.event.Dispatched? && p.event.answer.ConnectError?
      && stub.executionRef == p.event.order.executionRef && stub.decisionId == p.event.order.decisionId
      && stub.token == p.event.order.token && stub.goal == p.event.order.goal
    case Recorded(_) =>
      Labels(p) == []
  }

  predicate Lawful(l: Log) {
    l.Start? || (Lawful(l.before) && Permitted(l.before, l.event))
  }

  /** The duties of the protocol: the pass may not stop here. */
  predicate Obliged(l: Log) {
    l.Then? &&
    match l.event
    case ContextRead(m) => m.Some? && EndsStale(l.before)
    case Submitted(_, reply) =>
      || (SaysStale(reply) && Submissions(l) == 1 && Dispatches(l) == 0)
      || (reply.Answer? && reply.v.token.Some? && reply.v.token.value != "" && (reply.v.verdict != "BLOCK" || Dispatches(l) == 1))
    case Dispatched(_, answer) => answer.ConnectError? || (SaysExpired(answer) && Dispatches(l) == 1)
    case _ => false
  }

  function Unrecorded(l: Log): Log {
    if l.Then? && l.event.Recorded? then l.before else l
  }

  /** The outcome as it can be read off the events. */
  predicate Explains(l: Log, o: Outcome) {
    l.Then? &&
    var answered := l.event.Submitted? && l.event.reply.Answer?;
    var refused := l.event.Submitted? && l.event.reply.SubmitError?;
    && (o.Http? ==> o.code == 502 || o.code == 409)
    && (o == Http(502) <==> Submissions(l) == 1 && refused && !SaysStale(l.event.reply))
    && (o == Http(409) <==> Dispatches(l) == 0 && ((Submissions(l) == 2 && refused) || (l.event == ContextRead(None) && EndsStale(l.before))))
    && (o.Escalated? <==> Dispatches(l) == 0 && answered && l.event.reply.v.verdict == "BLOCK")
    && (o.Executing? <==> TakenIn(l))
    && (o.Crash? <==> (Dispatches(l) > 0 && !TakenIn(l)) || (Dispatches(l) == 0 && answered && l.event.reply.v.verdict != "BLOCK"))
  }

  /** All submissions and dispatches are about the same decision, spec, payload hash and goal. */
  predicate About(l: Log, inp: PassInput, job: Job) {
    l.Start? ||
    (About(l.before, inp, job) &&
     match l.event
     case Submitted(req, _) => req.decisionId == inp.ids.decision && req.spec == job.node
       && req.payloadHash == job.payloadHash && req.goal == inp.goal && req.predicted == Predicted(job.decision)
       && req.cls == job.request.cls && req.entityClass == job.request.entityClass
     case Dispatched(order, _) => order.decisionId == inp.ids.decision && order.spec == job.node && order.goal == inp.goal
       && order.simulation == inp.simulation
       && order.executionRef == if Dispatches(l.before) == 0 then inp.ids.firstRef else inp.ids.secondRef
     case _ => true)
  }

  // ---------------------------------------------------------------- before the first submission

  predicate Quiet(l: Log) {
    l.Start? || (Quiet(l.before) && (l.event.ContextRead? || l.event.Recorded?))
  }

  lemma {:induction false} QuietCounts(l: Log)
    requires Quiet(l)
    ensures Submissions(l) == 0 && Dispatches(l) == 0 && Stubs(l) == 0
    ensures LastSubmitted(l).None? && LastDispatched(l).None? && FirstSubmitted(l).None?
    ensures forall inp, job :: About(l, inp, job)
  {
    if l.Then? {
      QuietCounts(l.before);
    }
  }

  /** The label an outcome is recorded under; other exceptions are not recorded. */
  function LabelsOf(o: Outcome): seq<string> {
    match o
    case Executing(_, _, _) => ["EXECUTING"]
    case Escalated(_) => ["ESCALATED"]
    case Http(_) => ["ERROR"]
    case Clarify => ["CLARIFICATION_REQUIRED"]
    case Crash => []
  }

  predicate Settled(p: Prepared) {
    && Quiet(p.log) && Lawful(p.log)
    && (p.Ready? ==> Labels(p.log) == [])
    && (p.Exit? ==> !p.outcome.Executing? && Labels(p.log) == LabelsOf(p.outcome))
  }

  lemma ChooseSettles(w: World, inp: PassInput, version: string, req: Request, m: Manifest, n: nat,
                      path: GenerationPath, cs: seq<Candidate>, log: Log)
    requires Quiet(log) && Lawful(log) && Labels(log) == []
    ensures Settled(Choose(w, inp, version, req, m, n, path, cs, log))
  {
    forall d: DecisionRecord ensures Settled(Compiled(inp, req, cs, d, log)) {
      CompiledSettles(inp, req, cs, d, log);
    }
  }

  lemma CompiledSettles(inp: PassInput, req: Request, cs: seq<Candidate>, d: DecisionRecord, log: Log)
    requires Quiet(log) && Lawful(log) && Labels(log) == []
    ensures Settled(Compiled(inp, req, cs, d, log))
  {
    var p := Compiled(inp, req, cs, d, log);
    if p.Exit? {
      assert p.log.Then? && p.log.before == log && Permitted(log, p.log.event);
    }
  }

  lemma PrepareSettles(w: World, inp: PassInput, version: string)
    ensures Settled(Prepare(w, inp, version))
  {
    if w.interpret.Understood? {
      var m := w.context(Start);
      var log := Then(Start, ContextRead(m));
      assert Lawful(Start) && Permitted(Start, log.event);
      assert Labels(Start) == [] && Labels(log) == Labels(Start) + [];
      assert Quiet(log) && Lawful(log) && Labels(log) == [];
      if m.Some? && w.generate.Some? && w.dryRuns.Some? {
        var filtered := Filtered(w.generate.value.0, w.dryRuns.value);
        if filtered.Survivors? {
          ChooseSettles(w, inp, version, w.interpret.request, m.value, |w.generate.value.0|,
                        w.generate.value.1, filtered.kept, log);
        }
      }
    }
  }

  // ---------------------------------------------------------------- the protocol

  /** A log in the middle of the protocol. */
  predicate Underway(l: Log, inp: PassInput, job: Job) {
    Lawful(l) && About(l, inp, job) && Labels(l) == [] && Stubs(l) == 0
  }

  predicate EndsAnswered(l: Log, v: Verdict) {
    l.Then? && l.event.Submitted? && l.event.reply == Answer(v)
  }

  predicate MayDispatch(l: Log, v: Verdict) {
    EndsAnswered(l, v) && ((Dispatches(l) == 0 && v.verdict != "BLOCK") || (Dispatches(l) == 1 && EndsExpired(l.before)))
  }

  predicate TakenIn(l: Log) {
    l.Then? && ((l.event.Dispatched? && SaysTaken(l.event.answer)) || TakenIn(l.before))
  }

  lemma HandOffKeeps(w: World, inp: PassInput, job: Job, v: Verdict, ref: Uuid, log: Log)
    requires Underway(log, inp, job) && MayDispatch(log, v) && !TakenIn(log)
    requires ref == if Dispatches(log) == 0 then inp.ids.firstRef else inp.ids.secondRef
    ensures var (h, l) := HandOff(w, inp, job, v, ref, log);
            && Lawful(l) && About(l, inp, job) && Labels(l) == []
            && Submissions(l) == Submissions(log) && LastSubmitted(l) == LastSubmitted(log)
            && FirstSubmitted(l) == FirstSubmitted(log)
            && Dispatches(log) <= Dispatches(l) <= Dispatches(log) + 1
            && (h == Accepted <==> TakenIn(l))
            && (h == Accepted ==> GivenTo(l, ref))
            && (h != Accepted ==> Stubs(l) == 0)
            && l.Then? && !l.event.Recorded? && (h == Rejected ==> !Obliged(l))
            && (h == Accepted ==> !Obliged(l) && Dispatches(l) == Dispatches(log) + 1)
            && (h == Rejected && Dispatches(l) == 0 ==> l == log)
            && (h == TokenExpired && Dispatches(log) == 1 ==> !Obliged(l))
            && (h == TokenExpired ==> EndsExpired(l) && Dispatches(l) == Dispatches(log) + 1)
  {
    if v.token.Some? && v.token.value != "" {
      var order := OrderOf(job, inp, v.token.value, v.ttl, ref);
      var sent := Then(log, Dispatched(order, w.runner(log, order)));
      assert Permitted(log, sent.event);
      assert Lawful(sent) && About(sent, inp, job) && Stubs(sent) == 0 && Labels(sent) == [];
    }
  }

  /** The order with this reference was the last one, and the runner took it or could not be reached,
      the latter with exactly one stub outcome. */
  predicate GivenTo(l: Log, ref: Uuid) {
    LastDispatched(l).Some? &&
    var d := LastDispatched(l).value;
    d.Dispatched? && d.order.executionRef == ref && SaysTaken(d.answer)
    && Stubs(l) == if d.answer.ConnectError? then 1 else 0
  }

  /** What holds of a finished pass that reached its first submission. */
  predicate Concluded(d: Done, inp: PassInput, job: Job) {
    && Lawful(d.log) && About(d.log, inp, job)
    && Submissions(d.log) <= 3 && Dispatches(d.log) <= 2
    && Labels(d.log) == LabelsOf(d.outcome)
    && !Obliged(Unrecorded(d.log)) && Explains(Unrecorded(d.log), d.outcome)
    && (d.outcome.Executing? <==> TakenIn(d.log))
    && (d.outcome.Executing? ==> GivenTo(d.log, d.outcome.executionRef) && d.outcome.decisionId == inp.ids.decision)
    && (!d.outcome.Executing? ==> Stubs(d.log) == 0)
    && LastSubmitted(d.log).Some? && LastSubmitted(d.log).value.Submitted?
    && LastSubmitted(d.log).value.request.stateVersion == d.version
    && (d.outcome.Executing? ==> LastSubmitted(d.log).value.reply.Answer?)
    && (d.outcome.Executing? ==> LastSubmitted(d.log).value.reply.v.auditRef == d.outcome.auditRef)
  }

  /** A log that may end in outcome `o`, before that is recorded. */
  predicate Ripe(l: Log, o: Outcome, version: string, inp: PassInput, job: Job) {
    && l.Then? && !l.event.Recorded?
    && Lawful(l) && About(l, inp, job) && Labels(l) == []
    && Submissions(l) <= 3 && Dispatches(l) <= 2
    && !Obliged(l) && Explains(l, o) && !o.Clarify?
    && (o.Executing? ==> GivenTo(l, o.executionRef) && o.decisionId == inp.ids.decision)
    && (!o.Executing? ==> Stubs(l) == 0)
    && LastSubmitted(l).Some? && LastSubmitted(l).value.Submitted?
    && LastSubmitted(l).value.request.stateVersion == version
    && (o.Executing? ==> LastSubmitted(l).value.reply.Answer?
                         && LastSubmitted(l).value.reply.v.auditRef == o.auditRef)
  }

  /** The log with its outcome recorded, as far as it is. */
  function Close(l: Log, o: Outcome): Log {
    if LabelsOf(o) == [] then l else Then(l, Recorded(LabelsOf(o)[0]))
  }

  lemma CloseConcludes(l: Log, o: Outcome, version: string, inp: PassInput, job: Job)
    requires Ripe(l, o, version, inp, job)
    ensures Concluded(Done(o, Close(l, o), version), inp, job)
    ensures FirstSubmitted(l).Some? ==> FirstSubmitted(Close(l, o)) == FirstSubmitted(l)
  {
    if !o.Crash? {
      assert Permitted(l, Close(l, o).event);
      assert Labels(Close(l, o)) == Labels(l) + LabelsOf(o);
    }
  }

  /** The further submission of a renewal or of a retry. */
  lemma AskedAgain(inp: PassInput, job: Job, version: string, log: Log, reply: SubmitReply)
    requires Underway(log, inp, job) && !TakenIn(log)
    requires Permitted(log, Submitted(SubmissionOf(job, inp, version), reply))
    ensures var asked := Then(log, Submitted(SubmissionOf(job, inp, version), reply));
            && Underway(asked, inp, job) && !TakenIn(asked)
            && Submissions(asked) == Submissions(log) + 1 && Dispatches(asked) == Dispatches(log)
            && LastSubmitted(asked) == Some(asked.event)
            && (FirstSubmitted(log).Some? ==> FirstSubmitted(asked) == FirstSubmitted(log))
  {
  }

  lemma RenewConcludes(w: World, inp: PassInput, job: Job, version: string, log: Log)
    requires Underway(log, inp, job) && EndsExpired(log) && Dispatches(log) == 1 && Submissions(log) <= 2 && !TakenIn(log)
    ensures Concluded(Renew(w, inp, job, version, log), inp, job)
    ensures FirstSubmitted(log).Some? ==> FirstSubmitted(Renew(w, inp, job, version, log).log) == FirstSubmitted(log)
  {
    var req := SubmissionOf(job, inp, version);
    var asked := Then(log, Submitted(req, w.submit(log, req)));
    AskedAgain(inp, job, version, log, asked.event.reply);
    if asked.event.reply.Answer? {
      SecondHandOffConcludes(w, inp, job, asked.event.reply.v, version, asked);
    } else {
      CloseConcludes(asked, Crash, version, inp, job);
    }
  }

  lemma SecondHandOffConcludes(w: World, inp: PassInput, job: Job, v: Verdict, version: string, log: Log)
    requires Underway(log, inp, job) && EndsAnswered(log, v) && EndsExpired(log.before) && Dispatches(log) == 1
    requires Submissions(log) <= 3 && !TakenIn(log) && log.event.request.stateVersion == version
    ensures var (h, l) := HandOff(w, inp, job, v, inp.ids.secondRef, log);
            var d := if h == Accepted then Executed(inp, v, inp.ids.secondRef, l, version) else Done(Crash, l, version);
            Concluded(d, inp, job) && (FirstSubmitted(log).Some? ==> FirstSubmitted(d.log) == FirstSubmitted(log))
  {
    HandOffKeeps(w, inp, job, v, inp.ids.secondRef, log);
    var (h, l) := HandOff(w, inp, job, v, inp.ids.secondRef, log);
    var o := if h == Accepted then Executing(inp.ids.decision, inp.ids.secondRef, v.auditRef) else Crash;
    CloseConcludes(l, o, version, inp, job);
  }

  lemma ConcludeConcludes(w: World, inp: PassInput, job: Job, v: Verdict, version: string, log: Log)
    requires Underway(log, inp, job) && EndsAnswered(log, v) && Dispatches(log) == 0 && Submissions(log) <= 2
    requires !TakenIn(log) && log.event.request.stateVersion == version && FirstSubmitted(log).Some?
    ensures Concluded(Conclude(w, inp, job, v, version, log), inp, job)
    ensures FirstSubmitted(Conclude(w, inp, job, v, version, log).log) == FirstSubmitted(log)
  {
    if v.verdict == "BLOCK" {
      CloseConcludes(log, Escalated(inp.ids.hold), version, inp, job);
    } else {
      HandOffKeeps(w, inp, job, v, inp.ids.firstRef, log);
      var (h, sent) := HandOff(w, inp, job, v, inp.ids.firstRef, log);
      match h
      case Accepted =>
        CloseConcludes(sent, Executing(inp.ids.decision, inp.ids.firstRef, v.auditRef), version, inp, job);
      case TokenExpired =>
        RenewConcludes(w, inp, job, version, sent);
      case Rejected =>
        CloseConcludes(sent, Crash, version, inp, job);
    }
  }

  lemma FirstSubmission(inp: PassInput, job: Job, version: string, log: Log, reply: SubmitReply)
    requires Quiet(log) && Lawful(log) && Labels(log) == []
    ensures var asked := Then(log, Submitted(SubmissionOf(job, inp, version), reply));
            && Underway(asked, inp, job) && !TakenIn(asked) && Submissions(asked) == 1 && Dispatches(asked) == 0
            && FirstSubmitted(asked) == Some(asked.event)
  {
    QuietCounts(log);
    QuietTakesNothing(log);
    var asked := Then(log, Submitted(SubmissionOf(job, inp, version), reply));
    assert Permitted(log, asked.event) && About(log, inp, job);
    assert Labels(asked) == Labels(log) + [] && Stubs(asked) == Stubs(log);
  }

  lemma FinishConcludes(w: World, inp: PassInput, job: Job, version: string, log: Log)
    requires Quiet(log) && Lawful(log) && Labels(log) == []
    ensures Concluded(Finish(w, inp, job, version, log), inp, job)
    ensures var first := FirstSubmitted(Finish(w, inp, job, version, log).log);
            first.Some? && first.value.Submitted? && first.value.request.stateVersion == version
  {
    var req := SubmissionOf(job, inp, version);
    var asked := Then(log, Submitted(req, w.submit(log, req)));
    FirstSubmission(inp, job, version, log, asked.event.reply);
    if asked.event.reply.Answer? {
      ConcludeConcludes(w, inp, job, asked.event.reply.v, version, asked);
    } else if SaysStale(asked.event.reply) {
      RetryConcludes(w, inp, job, version, asked);
    }
  }

  lemma RetryConcludes(w: World, inp: PassInput, job: Job, version: string, log: Log)
    requires Underway(log, inp, job) && EndsStale(log) && Dispatches(log) == 0 && Submissions(log) == 1
    requires !TakenIn(log) && FirstSubmitted(log) == Some(log.event) && log.event.request.stateVersion == version
    ensures Concluded(Retry(w, inp, job, version, log), inp, job)
    ensures FirstSubmitted(Retry(w, inp, job, version, log).log) == FirstSubmitted(log)
  {
    var reread := Then(log, ContextRead(w.context(log)));
    Reread(inp, job, log, w.context(log));
    if reread.event.manifest.None? {
      CloseConcludes(reread, Http(409), version, inp, job);
    } else {
      var renewed := reread.event.manifest.value.stateVersion;
      var req := SubmissionOf(job, inp, renewed);
      var asked := Then(reread, Submitted(req, w.submit(reread, req)));
      AskedAgain(inp, job, renewed, reread, asked.event.reply);
      if asked.event.reply.Answer? {
        ConcludeConcludes(w, inp, job, asked.event.reply.v, renewed, asked);
      } else {
        CloseConcludes(asked, Http(409), renewed, inp, job);
      }
    }
  }

  /** The reread after a stale failure. */
  lemma Reread(inp: PassInput, job: Job, log: Log, m: Option<Manifest>)
    requires Underway(log, inp, job) && EndsStale(log) && Dispatches(log) == 0 && Submissions(log) == 1 && !TakenIn(log)
    ensures var reread := Then(log, ContextRead(m));
            && Underway(reread, inp, job) && !TakenIn(reread)
            && Submissions(reread) == 1 && Dispatches(reread) == 0
            && LastSubmitted(reread) == Some(log.event) && FirstSubmitted(reread) == FirstSubmitted(log)
  {
    assert Permitted(log, ContextRead(m));
  }

  lemma {:induction false} QuietTakesNothing(l: Log)
    requires Quiet(l)
    ensures !TakenIn(l)
  {
    if l.Then? {
      QuietTakesNothing(l.before);
    }
  }

  /** The protocol holds of every pass, whatever the peers answer. */
  lemma EveryPassIsLawful(w: World, inp: PassInput, version: string)
    ensures var d := Pass(w, inp, version);
            && Lawful(d.log) && Submissions(d.log) <= 3 && Dispatches(d.log) <= 2
            && (d.outcome.Executing? <==> TakenIn(d.log))
    ensures var p := Prepare(w, inp, version);
            if p.Ready? then Concluded(Pass(w, inp, version), inp, p.job)
            else Quiet(Pass(w, inp, version).log) && Pass(w, inp, version).version == version
  {
    PrepareSettles(w, inp, version);
    var p := Prepare(w, inp, version);
    if p.Ready? {
      FinishConcludes(w, inp, p.job, version, p.log);
    } else {
      QuietCounts(p.log);
      QuietTakesNothing(p.log);
    }
  }

  /** Outcome accounting: exactly one record with the matching label for every return, HTTP error and
      clarification, and none for any other exception. */
  lemma EveryOutcomeIsRecordedOnce(w: World, inp: PassInput, version: string)
    ensures Labels(Pass(w, inp, version).log) == LabelsOf(Pass(w, inp, version).outcome)
  {
    PrepareSettles(w, inp, version);
    EveryPassIsLawful(w, inp, version);
  }

  // ---------------------------------------------------------------- the unchecked verdict

  /** Some dispatch was sent on the strength of a blocking verdict. */
  predicate DispatchedOnBlock(l: Log) {
    l.Then? && (DispatchedOnBlock(l.before) ||
      (l.event.Dispatched? && l.before.Then? && l.before.event.Submitted? && l.before.event.reply.Answer?
       && l.before.event.reply.v.verdict == "BLOCK"))
  }

  /** A new token came with a blocking verdict. */
  predicate RenewedByBlock(l: Log) {
    l.Then? && (RenewedByBlock(l.before) ||
      (l.event.Submitted? && EndsExpired(l.before) && l.event.reply.Answer? && l.event.reply.v.verdict == "BLOCK"
       && l.event.reply.v.token.Some? && l.event.reply.v.token.value != ""))
  }

  lemma {:induction false} QuietNeverRenews(l: Log)
    requires Quiet(l)
    ensures !RenewedByBlock(l) && !DispatchedOnBlock(l) && !EndsExpired(l)
  {
    if l.Then? {
      QuietNeverRenews(l.before);
    }
  }

  /** The first verdict a pass gets, with the version and the log it then has. */
  datatype Judged = NoVerdict | Judged(v: Verdict, version: string, log: Log)

  /** It answers the first submission, or the second one after a stale failure and a context reread. */
  function FirstVerdict(w: World, inp: PassInput, job: Job, version: string, log: Log): Judged {
    var req := SubmissionOf(job, inp, version);
    var r := w.submit(log, req);
    var asked := Then(log, Submitted(req, r));
    if r.Answer? then Judged(r.v, version, asked)
    else if !SaysStale(r) || w.context(asked).None? then NoVerdict
    else
      var reread := Then(asked, ContextRead(w.context(asked)));
      var renewed := w.context(asked).value.stateVersion;
      var again := SubmissionOf(job, inp, renewed);
      var r2 := w.submit(reread, again);
      if r2.Answer? then Judged(r2.v, renewed, Then(reread, Submitted(again, r2))) else NoVerdict
  }

  predicate HasToken(v: Verdict) {
    v.token.Some? && v.token.value != ""
  }

  /** What the peers have to answer: a first verdict that does not block and has a token, an expiry of that token,
      and a blocking verdict with a new token. */
  predicate PeersRenewByBlock(w: World, inp: PassInput, job: Job, j: Judged) {
    && j.Judged? && j.v.verdict != "BLOCK" && HasToken(j.v)
    && var order := OrderOf(job, inp, j.v.token.value, j.v.ttl, inp.ids.firstRef);
    var expiry := w.runner(j.log, order);
    var second := w.submit(Then(j.log, Dispatched(order, expiry)), SubmissionOf(job, inp, j.version));
    SaysExpired(expiry) && second.Answer? && second.v.verdict == "BLOCK" && HasToken(second.v)
  }

  /** A finished pass is the conclusion of its first verdict; without one nothing is dispatched. */
  lemma JudgedFinish(w: World, inp: PassInput, job: Job, version: string, log: Log)
    requires Quiet(log)
    ensures var j, d := FirstVerdict(w, inp, job, version, log), Finish(w, inp, job, version, log);
            if j.NoVerdict? then !RenewedByBlock(d.log) && !DispatchedOnBlock(d.log)
            else EndsAnswered(j.log, j.v) && !RenewedByBlock(j.log) && !DispatchedOnBlock(j.log)
                 && d == Conclude(w, inp, job, j.v, j.version, j.log)
  {
    QuietNeverRenews(log);
    var req := SubmissionOf(job, inp, version);
    var asked := Then(log, Submitted(req, w.submit(log, req)));
    assert !RenewedByBlock(asked) && !DispatchedOnBlock(asked);
    if SaysStale(asked.event.reply) && w.context(asked).Some? {
      var reread := Then(asked, ContextRead(w.context(asked)));
      assert !RenewedByBlock(reread) && !DispatchedOnBlock(reread);
    }
  }

  /** One hand-off adds a dispatch on a block exactly when it starts from a blocking verdict with a token. */
  lemma HandOffOnBlock(w: World, inp: PassInput, job: Job, v: Verdict, ref: Uuid, log: Log)
    requires EndsAnswered(log, v)
    ensures var l := HandOff(w, inp, job, v, ref, log).1;
            && RenewedByBlock(l) == RenewedByBlock(log)
            && DispatchedOnBlock(l) == (DispatchedOnBlock(log) || (v.verdict == "BLOCK" && HasToken(v)))
  {
  }

  lemma RenewOnBlock(w: World, inp: PassInput, job: Job, version: string, log: Log)
    requires EndsExpired(log) && !RenewedByBlock(log) && !DispatchedOnBlock(log)
    ensures var second, l := w.submit(log, SubmissionOf(job, inp, version)), Renew(w, inp, job, version, log).log;
            var blocked := second.Answer? && second.v.verdict == "BLOCK" && HasToken(second.v);
            RenewedByBlock(l) == blocked && DispatchedOnBlock(l) == blocked
  {
    var req := SubmissionOf(job, inp, version);
    var asked := Then(log, Submitted(req, w.submit(log, req)));
    if asked.event.reply.Answer? {
      HandOffOnBlock(w, inp, job, asked.event.reply.v, inp.ids.secondRef, asked);
    }
  }

  lemma ConcludeOnBlock(w: World, inp: PassInput, job: Job, j: Judged)
    requires j.Judged? && EndsAnswered(j.log, j.v) && !RenewedByBlock(j.log) && !DispatchedOnBlock(j.log)
    ensures var l := Conclude(w, inp, job, j.v, j.version, j.log).log;
            && RenewedByBlock(l) == PeersRenewByBlock(w, inp, job, j)
            && DispatchedOnBlock(l) == PeersRenewByBlock(w, inp, job, j)
  {
    if j.v.verdict != "BLOCK" {
      HandOffOnBlock(w, inp, job, j.v, inp.ids.firstRef, j.log);
      var (h, sent) := HandOff(w, inp, job, j.v, inp.ids.firstRef, j.log);
      if h == TokenExpired {
        RenewOnBlock(w, inp, job, j.version, sent);
      }
    }
  }

  /** Read off the peers' replies: a pass dispatches on a blocking verdict exactly when the token of its first
      verdict expires and the resubmission is answered by a block that carries a token. */
  lemma BlockIsDispatchedExactly(w: World, inp: PassInput, version: string)
    ensures var p, l := Prepare(w, inp, version), Pass(w, inp, version).log;
            && DispatchedOnBlock(l) == RenewedByBlock(l)
            && DispatchedOnBlock(l) ==
               (p.Ready? && PeersRenewByBlock(w, inp, p.job, FirstVerdict(w, inp, p.job, version, p.log)))
  {
    PrepareSettles(w, inp, version);
    var p := Prepare(w, inp, version);
    if p.Ready? {
      var j := FirstVerdict(w, inp, p.job, version, p.log);
      JudgedFinish(w, inp, p.job, version, p.log);
      if j.Judged? {
        ConcludeOnBlock(w, inp, p.job, j);
      }
    } else {
      QuietNeverRenews(p.log);
    }
  }

  /** Read off the log: exactly when the resubmission after an expired token was answered by a block that
      carries a token; that verdict is not looked at again. */
  lemma BlockAfterExpiryIsNotChecked(w: World, inp: PassInput, version: string)
    ensures DispatchedOnBlock(Pass(w, inp, version).log) <==> RenewedByBlock(Pass(w, inp, version).log)
  {
    BlockIsDispatchedExactly(w, inp, version);
  }

  function AllowThenBlock(l: Log, r: SubmitRequest): SubmitReply {
    Answer(Verdict(if Dispatches(l) == 0 then "ALLOW" else "BLOCK", Some("t"), 1, 0))
  }

  function ExpireThenTake(l: Log, o: DispatchRequest): RunnerReply {
    if Dispatches(l) == 0 then Status(401, Some("TOKEN_EXPIRED")) else Status(200, None)
  }

  lemma BlockCanBeTaken(w: World, inp: PassInput, job: Job, version: string, log: Log)
    requires Quiet(log) && w.submit == AllowThenBlock && w.runner == ExpireThenTake
    ensures DispatchedOnBlock(Finish(w, inp, job, version, log).log)
    ensures Finish(w, inp, job, version, log).outcome.Executing?
  {
    QuietCounts(log);
    Text.ContainsSelf("TOKEN_EXPIRED");
    var req := SubmissionOf(job, inp, version);
    var asked := Then(log, Submitted(req, w.submit(log, req)));
    assert Dispatches(asked) == 0;
    var (h, sent) := HandOff(w, inp, job, asked.event.reply.v, inp.ids.firstRef, asked);
    assert h == TokenExpired && Dispatches(sent) == 1;
    var again := Then(sent, Submitted(req, w.submit(sent, req)));
    assert Dispatches(again) == 1 && again.event.reply.v.verdict == "BLOCK";
    var (h2, last) := HandOff(w, inp, job, again.event.reply.v, inp.ids.secondRef, again);
    assert h2 == Accepted && DispatchedOnBlock(last);
  }

  /** Such peers exist for every prepared job. */
  lemma BlockCanBeDispatched(w: World, inp: PassInput, version: string) returns (bad: World)
    requires Prepare(w, inp, version).Ready?
    ensures bad == w.(submit := AllowThenBlock, runner := ExpireThenTake)
    ensures DispatchedOnBlock(Pass(bad, inp, version).log) && Pass(bad, inp, version).outcome.Executing?
  {
    bad := w.(submit := AllowThenBlock, runner := ExpireThenTake);
    var p := Prepare(w, inp, version);
    PrepareSettles(w, inp, version);
    assert Prepare(bad, inp, version) == p;
    BlockCanBeTaken(bad, inp, p.job, version, p.log);
  }
}
