// What a pass can submit and dispatch: dead exits, policy safety, and the quality of the decision.
module PassSafety {
  import opened Models
  import opened PolicyFilter
  import opened Evaluator
  import opened Selector
  import opened DecisionPass
  import opened PassProtocol
  import PlanCompiler

  // ---------------------------------------------------------------- dead exits

  ghost predicate CandidateNamed(cs: seq<Candidate>, id: Uuid) {
    exists c :: c in cs && c.0.id == id
  }

  lemma SameNames(es: seq<Evaluated>, cs: seq<Candidate>, id: Uuid)
    requires |es| == |cs| && forall i :: 0 <= i < |es| ==> es[i].id == cs[i].0.id
    ensures Names(es, id) <==> CandidateNamed(cs, id)
  {
    if Names(es, id) {
      var e :| e in es && e.id == id;
      var i :| 0 <= i < |es| && es[i] == e;
      assert cs[i] in cs;
    }
    if CandidateNamed(cs, id) {
      var c :| c in cs && c.0.id == id;
      var i :| 0 <= i < |cs| && cs[i] == c;
      assert es[i] in es;
    }
  }

  /** Records name exactly the candidates, duplicate ids included. */
  lemma RecordsNameCandidates(w: World, inp: PassInput, req: Request, m: Manifest, cs: seq<Candidate>)
    requires RecordsOf(w, inp, req, m, cs).Some?
    ensures forall id :: Names(RecordsOf(w, inp, req, m, cs).value, id) <==> CandidateNamed(cs, id)
  {
    var weights := ResolveWeights(w.weights, req.cls).value;
    var at := SettingOf(w, inp, req, m);
    var scored := ScoreAll(cs, weights, at).value;
    var project := w.project;
    ScoredRecords(cs, weights, at);
    RescoringKeepsIds(scored, cs, o => project(o, m), weights);
    forall id ensures Names(scored, id) <==> CandidateNamed(cs, id) {
      SameNames(scored, cs, id);
    }
  }

  /** A non-empty list of records leads to a choice, and the choice is one of the candidates. */
  lemma ChoiceIsFound(es: seq<Evaluated>, cs: seq<Candidate>, n: nat, path: GenerationPath, version: string)
    requires cs != [] && forall id :: Names(es, id) <==> CandidateNamed(cs, id)
    ensures var d := SelectDecision(es, n, n - |cs|, path, version);
            !d.escalated && d.selected.Some? && FirstWithId(cs, d.selected).Some?
  {
    assert cs[0] in cs && CandidateNamed(cs, cs[0].0.id);
    EscalatesOnlyWhenEmpty(es, n, n - |cs|, path, version);
    var best, _ := SelectsEarliestBest(es, n, n - |cs|, path, version);
    assert es[best] in es && Names(es, es[best].id);
  }

  /** `chosen` is the candidate the decision selects, and a ready job is its compilation. */
  predicate Chosen(chosen: Candidate, cs: seq<Candidate>, d: DecisionRecord, p: Prepared, log: Log, req: Request) {
    && chosen in cs && d.selected == Some(chosen.0.id) && !d.escalated
    && (p.Ready? <==> chosen.0.spec.kind != "" && chosen.0.spec.target != "")
    && (p.Ready? ==> p.job == Job(d, req, p.job.node, chosen.0.payloadHash) && p.log == log)
    && (p.Ready? ==> PlanCompiler.Compile(chosen.0) == Some([p.job.node]))
    && (p.Exit? ==> p.outcome == Http(422) && p.log == Then(log, Recorded("ERROR")))
  }

  lemma CompiledChoice(inp: PassInput, req: Request, cs: seq<Candidate>, d: DecisionRecord, log: Log) returns (chosen: Candidate)
    requires !d.escalated && d.selected.Some? && FirstWithId(cs, d.selected).Some?
    ensures Chosen(chosen, cs, d, Compiled(inp, req, cs, d, log), log, req)
  {
    chosen := FirstWithId(cs, d.selected).value;
  }

  /** Once the filter returned candidates and scoring did not raise, a pass is ready unless the selected
      option lacks its type or target: no escalation, no missing option, no empty plan. */
  lemma DeadExits(w: World, inp: PassInput, version: string, req: Request, m: Manifest, n: nat,
                  path: GenerationPath, cs: seq<Candidate>, log: Log)
    returns (d: DecisionRecord, chosen: Candidate)
    requires cs != [] && RecordsOf(w, inp, req, m, cs).Some?
    ensures d == SelectDecision(RecordsOf(w, inp, req, m, cs).value, n, n - |cs|, path, version)
    ensures Chosen(chosen, cs, d, Choose(w, inp, version, req, m, n, path, cs, log), log, req)
  {
    var es := RecordsOf(w, inp, req, m, cs).value;
    RecordsNameCandidates(w, inp, req, m, cs);
    ChoiceIsFound(es, cs, n, path, version);
    d := SelectDecision(es, n, n - |cs|, path, version);
    chosen := CompiledChoice(inp, req, cs, d, log);
  }

  /** The stages before scoring, when each of them returned normally. */
  predicate Gathered(w: World, cs: seq<Candidate>) {
    && w.interpret.Understood? && w.context(Start).Some? && w.generate.Some? && w.dryRuns.Some?
    && Filtered(w.generate.value.0, w.dryRuns.value) == Survivors(cs)
  }

  lemma GatheredChoice(w: World, inp: PassInput, version: string, cs: seq<Candidate>)
    requires Gathered(w, cs)
    ensures cs != []
    ensures var m := w.context(Start);
            Prepare(w, inp, version) == Choose(w, inp, version, w.interpret.request, m.value, |w.generate.value.0|,
                                               w.generate.value.1, cs, Then(Start, ContextRead(m)))
  {
  }

  lemma PrepareExits(w: World, inp: PassInput, version: string, cs: seq<Candidate>)
    requires Gathered(w, cs) && Prepare(w, inp, version).Exit?
    ensures Prepare(w, inp, version).outcome == Crash || Prepare(w, inp, version).outcome == Http(422)
  {
    GatheredChoice(w, inp, version, cs);
    var req, m, n, path := w.interpret.request, w.context(Start).value, |w.generate.value.0|, w.generate.value.1;
    if RecordsOf(w, inp, req, m, cs).Some? {
      var _, _ := DeadExits(w, inp, version, req, m, n, path, cs, Then(Start, ContextRead(Some(m))));
    }
  }

  lemma PrepareStops(w: World, inp: PassInput, version: string)
    requires !exists cs :: Gathered(w, cs)
    ensures var p := Prepare(w, inp, version);
            p.Exit? && p.outcome != Http(500)
  {
    if w.interpret.Understood? && w.context(Start).Some? && w.generate.Some? && w.dryRuns.Some? {
      var filtered := Filtered(w.generate.value.0, w.dryRuns.value);
      assert filtered.Survivors? ==> Gathered(w, filtered.kept);
    }
  }

  /** No pass ends for a missing option; before the verdict only the filter escalates. */
  lemma UnreachableOutcomes(w: World, inp: PassInput, version: string)
    ensures Pass(w, inp, version).outcome != Http(500)
    ensures Prepare(w, inp, version).Exit? && Prepare(w, inp, version).outcome.Escalated? ==> !exists cs :: Gathered(w, cs)
  {
    var p := Prepare(w, inp, version);
    if p.Ready? {
      PrepareSettles(w, inp, version);
      FinishConcludes(w, inp, p.job, version, p.log);
      assert Finish(w, inp, p.job, version, p.log).outcome != Http(500);
    } else if cs :| Gathered(w, cs) {
      PrepareExits(w, inp, version, cs);
    } else {
      PrepareStops(w, inp, version);
    }
  }

  // ---------------------------------------------------------------- early exits, read off the replies

  /** An answer names no generated option. */
  ghost predicate NamesUnknown(options: seq<PlanOption>, responses: seq<DryRun>) {
    exists r :: r in responses && forall o :: o in options ==> o.id != r.optionId
  }

  lemma FilteredExactly(options: seq<PlanOption>, responses: seq<DryRun>)
    ensures Filtered(options, responses).Unknown? <==> NamesUnknown(options, responses)
    ensures Filtered(options, responses).AllBlocked? <==>
            !NamesUnknown(options, responses) && forall r :: r in responses ==> r.verdict == Block
  {
    forall r | r in responses
      ensures Lookup(options, r.optionId).None? <==> forall o :: o in options ==> o.id != r.optionId
    {
      LookupFailsExactly(options, r.optionId);
    }
    assert AllKnown(options, responses) <==> !NamesUnknown(options, responses);
    if AllKnown(options, responses) {
      AllBlockedExactly(options, responses);
    }
  }

  lemma LookupFailsExactly(options: seq<PlanOption>, id: Uuid)
    ensures Lookup(options, id).None? <==> forall o :: o in options ==> o.id != id
  {
    if forall o :: o in options ==> o.id != id {
      assert forall i :: 0 <= i < |options| ==> options[i] in options;
    }
  }

  predicate LacksContext(w: World) {
    w.interpret.Understood? && w.context(Start).None?
  }

  /** The request was understood and the context read. */
  predicate Started(w: World) {
    w.interpret.Understood? && w.context(Start).Some?
  }

  /** No options, no answers, or an answer to nothing. */
  ghost predicate CannotFilter(w: World) {
    Started(w) && (w.generate.None? || w.dryRuns.None? || NamesUnknown(w.generate.value.0, w.dryRuns.value))
  }

  ghost predicate EveryAnswerBlocks(w: World) {
    && Started(w) && w.generate.Some? && w.dryRuns.Some?
    && !NamesUnknown(w.generate.value.0, w.dryRuns.value)
    && forall r :: r in w.dryRuns.value ==> r.verdict == Block
  }

  predicate ScoringRaises(w: World, inp: PassInput, cs: seq<Candidate>) {
    Gathered(w, cs) && RecordsOf(w, inp, w.interpret.request, w.context(Start).value, cs).None?
  }

  /** How a pass ends before scoring: outcome, events and version. */
  ghost predicate EndsEarly(w: World, inp: PassInput, version: string, d: Done) {
    var read := Then(Start, ContextRead(w.context(Start)));
    && (w.interpret.Unclear? ==> d == Done(Clarify, Then(Start, Recorded("CLARIFICATION_REQUIRED")), version))
    && (w.interpret.Refused? ==> d == Done(Crash, Start, version))
    && (LacksContext(w) ==> d == Done(Http(503), Then(read, Recorded("ERROR")), version))
    && (CannotFilter(w) ==> d == Done(Crash, read, version))
    && (EveryAnswerBlocks(w) ==> d == Done(Escalated(inp.ids.hold), Then(read, Recorded("ESCALATED")), version))
  }

  lemma EarlyExits(w: World, inp: PassInput, version: string)
    ensures EndsEarly(w, inp, version, Pass(w, inp, version))
  {
    if Started(w) && w.generate.Some? && w.dryRuns.Some? {
      FilteredExactly(w.generate.value.0, w.dryRuns.value);
    }
  }

  /** One of the early exits, or the candidates are gathered. */
  lemma StagesExhaust(w: World) returns (cs: seq<Candidate>)
    ensures w.interpret.Unclear? || w.interpret.Refused? || LacksContext(w) || CannotFilter(w) || EveryAnswerBlocks(w)
            || Gathered(w, cs)
    ensures Gathered(w, cs) ==> !w.interpret.Unclear? && !w.interpret.Refused? && !LacksContext(w) && !CannotFilter(w)
                                && !EveryAnswerBlocks(w)
  {
    cs := [];
    if Started(w) && w.generate.Some? && w.dryRuns.Some? {
      FilteredExactly(w.generate.value.0, w.dryRuns.value);
      if Filtered(w.generate.value.0, w.dryRuns.value).Survivors? {
        cs := Filtered(w.generate.value.0, w.dryRuns.value).kept;
      }
    }
  }

  lemma {:induction false} SubmittedCounts(l: Log)
    ensures FirstSubmitted(l).Some? ==> Submissions(l) > 0
  {
    if l.Then? {
      SubmittedCounts(l.before);
    }
  }

  /** A prepared pass submits, and its outcome is one of the later ones. */
  lemma ReadySubmits(w: World, inp: PassInput, version: string)
    requires Prepare(w, inp, version).Ready?
    ensures var d := Pass(w, inp, version);
            Submissions(d.log) > 0 && !d.outcome.Clarify? && d.outcome != Http(503) && d.outcome != Http(422)
  {
    var p := Prepare(w, inp, version);
    PrepareSettles(w, inp, version);
    FinishConcludes(w, inp, p.job, version, p.log);
    SubmittedCounts(Finish(w, inp, p.job, version, p.log).log);
  }

  /** How a pass over gathered candidates ends: with a submission, with a failure of scoring, or with the refusal
      of an incomplete spec. */
  predicate EndsGathered(w: World, inp: PassInput, cs: seq<Candidate>, d: Done) {
    if Submissions(d.log) > 0 then !d.outcome.Clarify? && d.outcome != Http(503) && d.outcome != Http(422)
    else if ScoringRaises(w, inp, cs) then d.outcome == Crash
    else d.outcome == Http(422)
  }

  lemma GatheredOutcomes(w: World, inp: PassInput, version: string, cs: seq<Candidate>)
    requires Gathered(w, cs)
    ensures EndsGathered(w, inp, cs, Pass(w, inp, version))
  {
    var m := w.context(Start).value;
    PrepareSettles(w, inp, version);
    if Prepare(w, inp, version).Ready? {
      ReadySubmits(w, inp, version);
    } else {
      GatheredChoice(w, inp, version, cs);
      QuietCounts(Prepare(w, inp, version).log);
      if !ScoringRaises(w, inp, cs) {
        var _, _ := DeadExits(w, inp, version, w.interpret.request, m, |w.generate.value.0|, w.generate.value.1, cs,
                              Then(Start, ContextRead(Some(m))));
      }
    }
  }

  /** Exactly when a pass ends without a submission, and how, in terms of the replies. */
  ghost predicate Classified(w: World, inp: PassInput, cs: seq<Candidate>, d: Done) {
    var silent := Submissions(d.log) == 0;
    && (d.outcome == Clarify <==> w.interpret.Unclear?)
    && (d.outcome == Http(503) <==> LacksContext(w))
    && (silent && d.outcome.Escalated? <==> EveryAnswerBlocks(w))
    && (silent && d.outcome.Crash? <==> w.interpret.Refused? || CannotFilter(w) || ScoringRaises(w, inp, cs))
    && (d.outcome == Http(422) <==> silent && Gathered(w, cs) && !ScoringRaises(w, inp, cs))
  }

  lemma EarlyIsClassified(w: World, inp: PassInput, version: string, cs: seq<Candidate>, d: Done)
    requires !Gathered(w, cs) && EndsEarly(w, inp, version, d)
    requires w.interpret.Unclear? || w.interpret.Refused? || LacksContext(w) || CannotFilter(w) || EveryAnswerBlocks(w)
    ensures Classified(w, inp, cs, d)
  {
    var read := Then(Start, ContextRead(w.context(Start)));
    assert Submissions(Start) == 0 && Submissions(read) == 0;
    assert Submissions(Then(read, Recorded("ESCALATED"))) == 0;
  }

  lemma OutcomesExactly(w: World, inp: PassInput, version: string) returns (cs: seq<Candidate>)
    ensures Classified(w, inp, cs, Pass(w, inp, version))
  {
    cs := StagesExhaust(w);
    EarlyExits(w, inp, version);
    if Gathered(w, cs) {
      GatheredOutcomes(w, inp, version, cs);
    } else {
      EarlyIsClassified(w, inp, version, cs, Pass(w, inp, version));
    }
  }

  predicate FirstBlocks(j: Judged) {
    j.Judged? && j.v.verdict == "BLOCK"
  }

  /** A prepared pass escalates exactly when its first verdict blocks, and returns the hold identifier drawn for it. */
  lemma BlockEscalates(w: World, inp: PassInput, job: Job, version: string, log: Log)
    requires Quiet(log)
    ensures var d, j := Finish(w, inp, job, version, log), FirstVerdict(w, inp, job, version, log);
            if FirstBlocks(j)
            then d == Done(Escalated(inp.ids.hold), Then(j.log, Recorded("ESCALATED")), j.version)
            else !d.outcome.Escalated?
  {
    var j := FirstVerdict(w, inp, job, version, log);
    JudgedFinish(w, inp, job, version, log);
    if j.NoVerdict? {
      NoVerdictNoEscalation(w, inp, job, version, log);
    }
  }

  /** Whenever a pass escalates it returns that identifier, and it has one of the two reasons. */
  lemma EscalationsExactly(w: World, inp: PassInput, version: string)
    ensures var o, p := Pass(w, inp, version).outcome, Prepare(w, inp, version);
            && (o.Escalated? ==> o.hold == inp.ids.hold)
            && (o.Escalated? <==>
                  EveryAnswerBlocks(w) || (p.Ready? && FirstBlocks(FirstVerdict(w, inp, p.job, version, p.log))))
  {
    var p := Prepare(w, inp, version);
    PrepareSettles(w, inp, version);
    var cs := StagesExhaust(w);
    if p.Ready? {
      BlockEscalates(w, inp, p.job, version, p.log);
      ReadyIsGathered(w, inp, version);
    } else if Gathered(w, cs) {
      PrepareExits(w, inp, version, cs);
    } else {
      EarlyExits(w, inp, version);
    }
  }

  lemma ReadyIsGathered(w: World, inp: PassInput, version: string)
    requires Prepare(w, inp, version).Ready?
    ensures !EveryAnswerBlocks(w)
  {
    if cs :| Gathered(w, cs) {
      FilteredExactly(w.generate.value.0, w.dryRuns.value);
    } else {
      PrepareStops(w, inp, version);
    }
  }

  lemma NoVerdictNoEscalation(w: World, inp: PassInput, job: Job, version: string, log: Log)
    ensures FirstVerdict(w, inp, job, version, log).NoVerdict? ==> !Finish(w, inp, job, version, log).outcome.Escalated?
  {
  }

  // ---------------------------------------------------------------- policy safety

  /** Where a ready job comes from: the candidates its pass chose among. */
  lemma JobOrigin(w: World, inp: PassInput, version: string) returns (m: Manifest, cs: seq<Candidate>, chosen: Candidate)
    requires Prepare(w, inp, version).Ready?
    ensures Gathered(w, cs) && w.context(Start) == Some(m) && RecordsOf(w, inp, w.interpret.request, m, cs).Some?
    ensures var job, es := Prepare(w, inp, version).job, RecordsOf(w, inp, w.interpret.request, m, cs).value;
            && job.decision == SelectDecision(es, |w.generate.value.0|, |w.generate.value.0| - |cs|, w.generate.value.1, version)
            && Chosen(chosen, cs, job.decision, Prepare(w, inp, version), Then(Start, ContextRead(Some(m))), w.interpret.request)
  {
    m := w.context(Start).value;
    cs := Filtered(w.generate.value.0, w.dryRuns.value).kept;
    GatheredChoice(w, inp, version, cs);
    var d;
    d, chosen := DeadExits(w, inp, version, w.interpret.request, m, |w.generate.value.0|, w.generate.value.1, cs,
                           Then(Start, ContextRead(Some(m))));
  }

  /** For any answers at all: what is submitted is the compiled plan of a generated option after an answer that
      names it and does not block, under that option's payload hash, and so is everything dispatched. */
  lemma SubmittedPlanStems(w: World, inp: PassInput, version: string) returns (o: PlanOption, r: DryRun)
    requires Prepare(w, inp, version).Ready?
    ensures w.generate.Some? && o in w.generate.value.0 && w.dryRuns.Some? && r in w.dryRuns.value
    ensures r.verdict != Block && r.optionId == o.id
    ensures var job := Prepare(w, inp, version).job;
            && job.decision.selected == Some(o.id) && job.payloadHash == o.payloadHash
            && (exists c :: After(c, o, r) && PlanCompiler.Compile(c) == Some([job.node]))
            && About(Pass(w, inp, version).log, inp, job)
  {
    var m, cs, chosen := JobOrigin(w, inp, version);
    EveryPassIsLawful(w, inp, version);
    o, r := StemOf(w.generate.value.0, w.dryRuns.value, chosen);
  }

  lemma StemOf(options: seq<PlanOption>, responses: seq<DryRun>, c: Candidate) returns (o: PlanOption, r: DryRun)
    requires AllKnown(options, responses) && c in Surviving(options, responses)
    ensures o in options && r in responses && r.verdict != Block && r.optionId == o.id
    ensures c.1 == r && After(c.0, o, r)
  {
    SurvivorsStem(options, responses);
    assert StemsFrom(c, options, responses);
    r := c.1;
    o :| o in options && After(c.0, o, c.1);
  }

  /** `node` is the plan of option `i` after its own dry run: the modified spec when there is one, else its own. */
  predicate PlanOf(i: nat, options: seq<PlanOption>, responses: seq<DryRun>, node: PlanCompiler.Node, payloadHash: string)
    requires i < |options| && i < |responses|
  {
    var r := responses[i];
    var spec := if r.verdict == Modify && r.modified.Some? then r.modified.value else options[i].spec;
    && r.verdict != Block
    && node == PlanCompiler.Node(PlanCompiler.Upper(spec.kind), spec.target, spec.params)
    && payloadHash == options[i].payloadHash
  }

  lemma PlanOfCandidate(i: nat, options: seq<PlanOption>, responses: seq<DryRun>, c: PlanOption, node: PlanCompiler.Node)
    requires i < |options| && i < |responses| && responses[i].verdict != Block
    requires After(c, options[i], responses[i]) && PlanCompiler.Compile(c) == Some([node])
    ensures PlanOf(i, options, responses, node, c.payloadHash) && c.id == options[i].id
  {
  }

  /** With one answer per option, a candidate is the option of some position after its own answer. */
  lemma CandidatePosition(options: seq<PlanOption>, responses: seq<DryRun>, c: Candidate) returns (i: nat)
    requires Echoed(options, responses) && AllKnown(options, responses) && c in Surviving(options, responses)
    ensures i < |options| && c.1 == responses[i] && After(c.0, options[i], responses[i]) && responses[i].verdict != Block
  {
    SurvivorsStem(options, responses);
    assert StemsFrom(c, options, responses);
    i := StemPosition(options, responses, c);
  }

  lemma StemPosition(options: seq<PlanOption>, responses: seq<DryRun>, c: Candidate) returns (i: nat)
    requires Echoed(options, responses) && StemsFrom(c, options, responses)
    ensures i < |options| && c.1 == responses[i] && After(c.0, options[i], responses[i])
  {
    i :| 0 <= i < |responses| && responses[i] == c.1;
    var o :| o in options && After(c.0, o, c.1);
    var k :| 0 <= k < |options| && options[k] == o;
    assert options[k].id == options[i].id;
  }

  /** Policy safety, end to end: with one answer per option, whatever is submitted or dispatched is the plan
      of an option that was not blocked, after its own modification, under that option's payload hash;
      and no blocked option was even scored. */
  lemma OnlyUnblockedPlansLeave(w: World, inp: PassInput, version: string) returns (i: nat)
    requires Prepare(w, inp, version).Ready? && Echoed(w.generate.value.0, w.dryRuns.value)
    ensures var options, responses := w.generate.value.0, w.dryRuns.value;
            var job := Prepare(w, inp, version).job;
            && i < |options| && job.decision.selected == Some(options[i].id)
            && PlanOf(i, options, responses, job.node, job.payloadHash)
            && About(Pass(w, inp, version).log, inp, job)
            && (forall k :: 0 <= k < |responses| && responses[k].verdict == Block ==>
                  !Names(job.decision.evaluated, responses[k].optionId))
  {
    var options, responses := w.generate.value.0, w.dryRuns.value;
    var m, cs, chosen := JobOrigin(w, inp, version);
    EveryPassIsLawful(w, inp, version);
    i := CandidatePosition(options, responses, chosen);
    PlanOfCandidate(i, options, responses, chosen.0, Prepare(w, inp, version).job.node);
    RecordsNameCandidates(w, inp, w.interpret.request, m, cs);
    BlockedAreNotNamed(options, responses, cs);
  }

  lemma BlockedAreNotNamed(options: seq<PlanOption>, responses: seq<DryRun>, cs: seq<Candidate>)
    requires Echoed(options, responses) && AllKnown(options, responses) && cs == Surviving(options, responses)
    ensures forall k :: 0 <= k < |responses| && responses[k].verdict == Block ==> !CandidateNamed(cs, responses[k].optionId)
  {
    forall k: nat, c | k < |responses| && responses[k].verdict == Block && c in cs
      ensures c.0.id != responses[k].optionId
    {
      BlockedIsNoCandidate(options, responses, k, c);
    }
  }

  lemma BlockedIsNoCandidate(options: seq<PlanOption>, responses: seq<DryRun>, k: nat, c: Candidate)
    requires Echoed(options, responses) && AllKnown(options, responses) && c in Surviving(options, responses)
    requires k < |responses| && responses[k].verdict == Block
    ensures c.0.id != responses[k].optionId
  {
    var p := CandidatePosition(options, responses, c);
    assert options[p].id != options[k].id;
  }

  // ---------------------------------------------------------------- the decision

  /** How many records there are, and when their ids are distinct: rescoring keeps one per id. */
  lemma RecordsCounted(w: World, inp: PassInput, req: Request, m: Manifest, cs: seq<Candidate>)
    requires RecordsOf(w, inp, req, m, cs).Some?
    ensures var es, at := RecordsOf(w, inp, req, m, cs).value, SettingOf(w, inp, req, m);
            && (|es| == |cs| <==> PolicyFilter.DistinctIds(cs) || forall c :: c in cs ==> !MustSimulate(c, at))
            && (DistinctRecords(es) <==> PolicyFilter.DistinctIds(cs) || exists c :: c in cs && MustSimulate(c, at))
  {
    var weights, at := ResolveWeights(w.weights, req.cls).value, SettingOf(w, inp, req, m);
    var scored := ScoreAll(cs, weights, at).value;
    var project := w.project;
    ScoredRecords(cs, weights, at);
    assert DistinctRecords(scored) <==> PolicyFilter.DistinctIds(cs);
    SimulationDue(scored, cs, at);
    RescoringKeepsIds(scored, cs, o => project(o, m), weights);
    RescoredDistinct(scored, cs, o => project(o, m), weights);
  }

  lemma {:induction false} SimulationDue(es: seq<Evaluated>, cs: seq<Candidate>, at: Setting)
    requires |es| == |cs| && forall i :: 0 <= i < |es| ==> (es[i].simulate <==> MustSimulate(cs[i], at))
    ensures NeedsSimulation(es) == [] <==> forall c :: c in cs ==> !MustSimulate(c, at)
  {
    NeedsSimulationIsFilter(es);
    if NeedsSimulation(es) != [] {
      var e := NeedsSimulation(es)[0];
      assert e in es && e.simulate;
      var i :| 0 <= i < |es| && es[i] == e;
      assert cs[i] in cs;
    }
    if c :| c in cs && MustSimulate(c, at) {
      var i :| 0 <= i < |cs| && cs[i] == c;
      assert es[i] in NeedsSimulation(es);
    }
  }

  /** Which scored record, and so which candidate, a record of the decision comes from. */
  ghost predicate RecordOf(e: Evaluated, c: Candidate, w: World, at: Setting, cs: seq<Candidate>) {
    var risk := RiskScore(c.0, at.role, at.request.entityClass);
    && e.id == c.0.id && e.verdict == c.1.verdict && Reads(e.scores, c, at)
    && (e.scores.risk == risk
        || (MustSimulate(c, at) && SomeViolates(w, at.manifest, cs, e.id)
            && e.scores.risk == if risk <= 0.7 then risk + 0.3 else 1.0))
  }

  /** The projection of a candidate of this id reports a violation. */
  ghost predicate SomeViolates(w: World, m: Manifest, cs: seq<Candidate>, id: Uuid) {
    exists c :: c in cs && c.0.id == id && w.project(c.0, m)
  }

  /** For any ids: every record of a decision reads its scores off one of the candidates, the actor's role and the
      fetched manifest, with the risk raised at most once, and its composite is formed with the fetched weights
      or those of the intent class. Scoring raises exactly when a weight is missing or a candidate's record fails. */
  lemma RecordsAreConfigured(w: World, inp: PassInput, req: Request, m: Manifest, cs: seq<Candidate>)
    ensures var at := Setting(req, m, inp.role, w.weights);
            var weights := ResolveWeights(w.weights, req.cls);
            && (RecordsOf(w, inp, req, m, cs).None? <==>
                  LacksWeight(w.weights) || exists i :: 0 <= i < |cs| && ScoreOne(cs[i], weights.value, at).None?)
            && (RecordsOf(w, inp, req, m, cs).Some? ==>
                  forall e :: e in RecordsOf(w, inp, req, m, cs).value ==>
                    ComposedAsConfigured(e, w.weights, req.cls) && exists c :: c in cs && RecordOf(e, c, w, at, cs))
  {
    var at := Setting(req, m, inp.role, w.weights);
    ScoredAsConfigured(cs, at);
    var weights := ResolveWeights(w.weights, req.cls);
    if weights.Some? {
      ScoreAllShape(cs, weights.value, at);
      if ScoreAll(cs, weights.value, at).Some? {
        forall e | e in RecordsOf(w, inp, req, m, cs).value
          ensures ComposedAsConfigured(e, w.weights, req.cls) && exists c :: c in cs && RecordOf(e, c, w, at, cs)
        {
          var c := RecordSource(w, inp, req, m, cs, weights.value, e);
        }
      }
    }
  }

  lemma RecordSource(w: World, inp: PassInput, req: Request, m: Manifest, cs: seq<Candidate>, weights: Weights, e: Evaluated)
    returns (c: Candidate)
    requires ResolveWeights(w.weights, req.cls) == Some(weights)
    requires RecordsOf(w, inp, req, m, cs).Some? && e in RecordsOf(w, inp, req, m, cs).value
    ensures ComposedAsConfigured(e, w.weights, req.cls)
    ensures c in cs && RecordOf(e, c, w, Setting(req, m, inp.role, w.weights), cs)
  {
    var at := Setting(req, m, inp.role, w.weights);
    var scored := ScoreAll(cs, weights, at).value;
    var project := w.project;
    var s := RescoredStems(scored, cs, o => project(o, m), weights, e);
    c := ScoredSource(cs, weights, at, s);
    if e != s {
      var o := OptionOf(cs, s.id).value;
      assert SomeViolates(w, m, cs, s.id);
    }
    RescoredReads(s, e, c, weights, at);
    WeighedIsConfigured(e, weights, w.weights, req.cls);
  }

  lemma ScoredSource(cs: seq<Candidate>, weights: Weights, at: Setting, s: Evaluated) returns (c: Candidate)
    requires ScoreAll(cs, weights, at).Some? && s in ScoreAll(cs, weights, at).value
    ensures c in cs && s.id == c.0.id && s.verdict == c.1.verdict && Reads(s.scores, c, at) && Weighed(s, weights)
    ensures s.scores.risk == RiskScore(c.0, at.role, at.request.entityClass) && (s.simulate <==> MustSimulate(c, at))
  {
    var scored := ScoreAll(cs, weights, at).value;
    ScoreAllShape(cs, weights, at);
    var i :| 0 <= i < |scored| && scored[i] == s;
    c := cs[i];
    assert Some(s) == ScoreOne(c, weights, at);
    RecordMeans(c, weights, at);
    SimulatedExactly(c, weights, at);
  }

  lemma RescoredReads(s: Evaluated, e: Evaluated, c: Candidate, weights: Weights, at: Setting)
    requires e == s || e == Bumped(s, weights)
    requires Reads(s.scores, c, at) && Weighed(s, weights)
    ensures Reads(e.scores, c, at) && Weighed(e, weights) && e.id == s.id && e.verdict == s.verdict
    ensures e != s ==> e.scores.risk == if s.scores.risk <= 0.7 then s.scores.risk + 0.3 else 1.0
  {
  }

  lemma RecordsAreConsistent(w: World, inp: PassInput, req: Request, m: Manifest, cs: seq<Candidate>, weights: Weights)
    requires RecordsOf(w, inp, req, m, cs).Some?
    requires ResolveWeights(w.weights, req.cls) == Some(weights) && Convex(weights)
    ensures forall e :: e in RecordsOf(w, inp, req, m, cs).value ==> Consistent(e, weights)
  {
    var at := SettingOf(w, inp, req, m);
    var project := w.project;
    ScoredRecords(cs, weights, at);
    RescoringStaysConsistent(ScoreAll(cs, weights, at).value, cs, o => project(o, m), weights);
  }

  /** For any answers at all: the decision reports the generated options and takes the candidates away from them;
      generated is blocked plus evaluated exactly when the candidates' ids are distinct or none must be simulated;
      and with distinct ids, or some candidate to simulate, the predicted score is the greatest composite. */
  lemma DecisionCounts(w: World, inp: PassInput, version: string) returns (cs: seq<Candidate>, at: Setting)
    requires Prepare(w, inp, version).Ready?
    ensures Gathered(w, cs) && at == SettingOf(w, inp, w.interpret.request, w.context(Start).value)
    ensures var d := Prepare(w, inp, version).job.decision;
            && d.generated == |w.generate.value.0| && d.blocked == d.generated - |cs|
            && d.path == w.generate.value.1 && d.stateVersion == version
            && (d.generated == d.blocked + |d.evaluated| <==>
                  PolicyFilter.DistinctIds(cs) || forall c :: c in cs ==> !MustSimulate(c, at))
            && (PolicyFilter.DistinctIds(cs) || (exists c :: c in cs && MustSimulate(c, at)) ==> PredictsMaximum(d))
  {
    var m, survivors, _ := JobOrigin(w, inp, version);
    cs := survivors;
    at := SettingOf(w, inp, w.interpret.request, m);
    RecordsCounted(w, inp, w.interpret.request, m, cs);
    var es := RecordsOf(w, inp, w.interpret.request, m, cs).value;
    EscalatesOnlyWhenEmpty(es, |w.generate.value.0|, |w.generate.value.0| - |cs|, w.generate.value.1, version);
    if DistinctRecords(es) {
      PredictedIsMaximum(es, |w.generate.value.0|, |w.generate.value.0| - |cs|, w.generate.value.1, version);
    }
  }

  /** The score submitted is the greatest composite of the decision's records. */
  ghost predicate PredictsMaximum(d: DecisionRecord) {
    && (forall e :: e in d.evaluated ==> e.composite <= Predicted(d))
    && (exists e :: e in d.evaluated && e.composite == Predicted(d))
  }

  lemma EchoedCandidates(options: seq<PlanOption>, responses: seq<DryRun>)
    requires Echoed(options, responses) && AllKnown(options, responses)
    ensures PolicyFilter.DistinctIds(Surviving(options, responses))
    ensures |options| - |Surviving(options, responses)| == BlockCount(responses)
  {
    assert responses[..|responses|] == responses;
    EchoedSurvivorsDistinct(options, responses, |responses|);
    SurvivorsCounted(options, responses);
  }

  /** With one answer per option the counts of the decision add up, the blocked ones are those the peers
      blocked, and the predicted score is the greatest composite of the records. */
  lemma DecisionAddsUp(w: World, inp: PassInput, version: string)
    requires Prepare(w, inp, version).Ready? && Echoed(w.generate.value.0, w.dryRuns.value)
    ensures var d := Prepare(w, inp, version).job.decision;
            && d.generated == d.blocked + |d.evaluated| && d.blocked == BlockCount(w.dryRuns.value)
            && PredictsMaximum(d)
  {
    var cs, at := DecisionCounts(w, inp, version);
    EchoedCandidates(w.generate.value.0, w.dryRuns.value);
  }

  /** With convex weights, and for any answers, every submitted record is within bounds and the confidence is too. */
  lemma DecisionIsBounded(w: World, inp: PassInput, version: string, weights: Weights)
    requires Prepare(w, inp, version).Ready?
    requires ResolveWeights(w.weights, w.interpret.request.cls) == Some(weights) && Convex(weights)
    ensures var d := Prepare(w, inp, version).job.decision;
            Unit(d.confidence) && forall e :: e in d.evaluated ==> Consistent(e, weights)
  {
    var m, cs, _ := JobOrigin(w, inp, version);
    var es := RecordsOf(w, inp, w.interpret.request, m, cs).value;
    RecordsAreConsistent(w, inp, w.interpret.request, m, cs, weights);
    ConfidenceInUnit(es, |w.generate.value.0|, |w.generate.value.0| - |cs|, w.generate.value.1, version);
  }

  // ---------------------------------------------------------------- a concrete run

  const LONE := PlanOption(7, "READ", ActionSpec("read", "db1", map[]), [], true, "h")

  /** Peers with one option, one answer that allows it, and no configured weights. */
  function OneOptionWorld(): World {
    World(Understood(Request(Query, "SERVICE", [])), _ => Some(Manifest("v1", [])), None, Some(([LONE], ByRules)),
          Some([DryRun(7, Allow, None)]), (_, _) => false, (_, _) => SubmitError("down"), (_, _) => OtherError,
          (_, _) => true)
  }

  lemma OneOptionIsGathered()
    ensures Gathered(OneOptionWorld(), [(LONE, DryRun(7, Allow, None))])
  {
    var responses := [DryRun(7, Allow, None)];
    assert responses[..0] == [] && Surviving([LONE], []) == [];
    assert Surviving([LONE], responses) == [(LONE, responses[0])];
  }

  /** For every role, goal and version this pass gets as far as its verdict. */
  lemma OneOptionIsPrepared(inp: PassInput, version: string)
    ensures Prepare(OneOptionWorld(), inp, version).Ready?
    ensures Echoed([LONE], [DryRun(7, Allow, None)]) && ResolveWeights(None, Query) == Some(DefaultWeights(Query))
    ensures Prepare(OneOptionWorld(), inp, version).job.decision.selected == Some(LONE.id)
  {
    var w, cs := OneOptionWorld(), [(LONE, DryRun(7, Allow, None))];
    var req, m := w.interpret.request, Manifest("v1", []);
    OneOptionIsGathered();
    GatheredChoice(w, inp, version, cs);
    DefaultsAreConvex(Query);
    ScoringNeverRejects(cs, DefaultWeights(Query), SettingOf(w, inp, req, m));
    var _, chosen := DeadExits(w, inp, version, req, m, 1, ByRules, cs, Then(Start, ContextRead(Some(m))));
    assert chosen == cs[0];
  }

  /** So there is a run, concrete up to the identifiers drawn, that dispatches on a blocking verdict. */
  lemma BlockIsDispatchedSomewhere(inp: PassInput, version: string) returns (w: World)
    ensures w == OneOptionWorld().(submit := AllowThenBlock, runner := ExpireThenTake)
    ensures DispatchedOnBlock(Pass(w, inp, version).log) && Pass(w, inp, version).outcome.Executing?
  {
    OneOptionIsPrepared(inp, version);
    w := BlockCanBeDispatched(OneOptionWorld(), inp, version);
  }
}
