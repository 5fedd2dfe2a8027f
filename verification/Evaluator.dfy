// Scoring of the surviving options and the conditional rescoring of the top two.
// Scores are exact reals; rounding to four decimals is exact round-half-to-even.
module Evaluator {
  import opened Models
  import opened OrderedDict
  import StableSort
  import Text

  datatype Scores = Scores(policy: real, outcome: real, risk: real, fit: real)

  datatype Weights = Weights(policy: real, outcome: real, risk: real, fit: real)

  /** The fetched configuration; its weights, when present, are an unchecked dictionary. */
  datatype WeightConfig = WeightConfig(weights: Option<map<string, real>>)

  datatype Evaluated = Evaluated(
    id: Uuid, verdict: PolicyVerdict, scores: Scores, composite: real, simulate: bool)

  predicate Unit(x: real) {
    0.0 <= x <= 1.0
  }

  // ---------------------------------------------------------------- rounding

  function RoundHalfEven(x: real): int {
    var f := x.Floor;
    var d := x - f as real;
    if d < 0.5 || (d == 0.5 && f % 2 == 0) then f else f + 1
  }

  function Round4(x: real): real {
    RoundHalfEven(x * 10000.0) as real / 10000.0
  }

  /** Rounding is monotone, fixes both ends of the unit interval and moves a value by at most half a unit. */
  lemma Round4Properties(x: real, y: real)
    ensures x <= y ==> Round4(x) <= Round4(y)
    ensures Unit(x) ==> Unit(Round4(x))
    ensures -0.00005 <= Round4(x) - x <= 0.00005
  {
    var a, b := x * 10000.0, y * 10000.0;
    if x <= y {
      assert a.Floor <= b.Floor;
    }
    assert RoundHalfEven(0.0) == 0 && RoundHalfEven(10000.0) == 10000;
    if Unit(x) {
      assert 0 <= a.Floor <= 10000;
    }
  }

  /** Rounding returns the nearest multiple of a ten-thousandth, and of two equally near ones the even one. */
  lemma Round4IsNearest(x: real) returns (n: int)
    ensures Round4(x) * 10000.0 == n as real
    ensures -0.5 <= n as real - x * 10000.0 <= 0.5
    ensures n as real - x * 10000.0 == 0.5 || n as real - x * 10000.0 == -0.5 ==> n % 2 == 0
  {
    n := RoundHalfEven(x * 10000.0);
  }

  // ---------------------------------------------------------------- the four scores

  function ClassName(c: IntentClass): string {
    match c case Query => "QUERY" case Decision => "DECISION" case Execution => "EXECUTION" case Escalation => "ESCALATION"
  }

  function RoleName(r: ActorRole): string {
    match r case Admin => "ADMIN" case Operator => "OPERATOR" case Viewer => "VIEWER" case Agent => "AGENT"
  }

  /** The text that is hashed into a context signature; `None` is the error for an empty field.
      The hash is taken as injective, so the text stands for its hash. */
  function Signature(c: IntentClass, actionType: string, entityClass: string, role: ActorRole): Option<string> {
    if actionType == "" || entityClass == "" then None
    else Some(Text.Lower(ClassName(c)) + "|" + Text.Lower(actionType) + "|" + Text.Lower(entityClass) + "|" + Text.Lower(RoleName(role)))
  }

  /** The signature names class, action, entity and role in small letters, in this order; it fails exactly
      without an action or an entity. */
  lemma SignatureText(c: IntentClass, actionType: string, entityClass: string, role: ActorRole)
    ensures var cls := match c case Query => "query" case Decision => "decision" case Execution => "execution"
                               case Escalation => "escalation";
            var who := match role case Admin => "admin" case Operator => "operator" case Viewer => "viewer"
                                  case Agent => "agent";
            Signature(c, actionType, entityClass, role) ==
              if actionType == "" || entityClass == "" then None
              else Some(cls + "|" + Text.Lower(actionType) + "|" + Text.Lower(entityClass) + "|" + who)
  {
    ClassInSmallLetters(c);
    RoleInSmallLetters(role);
  }

  lemma ClassInSmallLetters(c: IntentClass)
    ensures Text.Lower(ClassName(c)) ==
            match c case Query => "query" case Decision => "decision" case Execution => "execution"
                    case Escalation => "escalation"
  {
  }

  lemma RoleInSmallLetters(role: ActorRole)
    ensures Text.Lower(RoleName(role)) ==
            match role case Admin => "admin" case Operator => "operator" case Viewer => "viewer" case Agent => "agent"
  {
  }

  function FirstMatch(patterns: seq<Pattern>, sig: string): real {
    if patterns == [] then 0.5
    else if patterns[0].signature == sig then patterns[0].successRate * patterns[0].confidence
    else FirstMatch(patterns[1..], sig)
  }

  /** The outcome score is the product of the first matching pattern, and neutral without one. */
  lemma {:induction false} OutcomeIsFirstMatch(patterns: seq<Pattern>, sig: string, i: nat)
    requires i <= |patterns| && forall j :: 0 <= j < i ==> patterns[j].signature != sig
    requires i < |patterns| ==> patterns[i].signature == sig
    ensures FirstMatch(patterns, sig) ==
            if i < |patterns| then patterns[i].successRate * patterns[i].confidence else 0.5
    decreases i
  {
    if i > 0 {
      OutcomeIsFirstMatch(patterns[1..], sig, i - 1);
    }
  }

  function PolicyScore(v: PolicyVerdict): real {
    match v case Allow => 1.0 case AllowWithWarnings => 0.7 case Modify => 0.5 case Defer => 0.3 case Block => 0.0
  }

  function Sensitivity(entityClass: string): real {
    if entityClass == "ML_MODEL" then 0.6 else if entityClass == "DATABASE" then 0.8
    else if entityClass == "SCHEMA" then 0.9 else if entityClass == "SERVICE" then 0.5
    else if entityClass == "CLUSTER" then 0.7 else if entityClass == "FILE" then 0.2 else 0.3
  }

  function Min(x: real, y: real): real {
    if x <= y then x else y
  }

  function RiskScore(o: PlanOption, role: ActorRole, entityClass: string): real {
    Min((if o.reversible then 0.0 else 0.3) + Sensitivity(entityClass)
        + Min(|o.sideEffects| as real * 0.05, 0.2) + (if role == Agent then 0.1 else 0.0), 1.0)
  }

  function Wanted(constraints: seq<string>): set<string> {
    set c | c in constraints
  }

  /** The wanted constraints that are parameters. */
  function Met(o: PlanOption, constraints: seq<string>): set<string> {
    set c | c in constraints && c in o.spec.params
  }

  function FitScore(o: PlanOption, constraints: seq<string>): real {
    var wanted := Wanted(constraints);
    if wanted == {} then 1.0 else |o.spec.params.Keys * wanted| as real / |wanted| as real
  }

  /** The search for a matching pattern. */
  method OutcomeScore(patterns: seq<Pattern>, sig: string) returns (score: real)
    ensures score == FirstMatch(patterns, sig)
  {
    for i := 0 to |patterns|
      invariant forall j :: 0 <= j < i ==> patterns[j].signature != sig
    {
      if patterns[i].signature == sig {
        OutcomeIsFirstMatch(patterns, sig, i);
        return patterns[i].successRate * patterns[i].confidence;
      }
    }
    OutcomeIsFirstMatch(patterns, sig, |patterns|);
    return 0.5;
  }

  /** The running total of the risk score, term by term. */
  method ComputeRisk(o: PlanOption, role: ActorRole, entityClass: string) returns (score: real)
    ensures score == RiskScore(o, role, entityClass)
    ensures Sensitivity(entityClass) <= score <= 1.0
  {
    score := 0.0;
    if !o.reversible {
      score := score + 0.3;
    }
    score := score + Sensitivity(entityClass);
    score := score + Min(|o.sideEffects| as real * 0.05, 0.2);
    if role == Agent {
      score := score + 0.1;
    }
    score := Min(score, 1.0);
  }

  // ---------------------------------------------------------------- weights and composite

  function DefaultWeights(c: IntentClass): Weights {
    match c
    case Execution => Weights(0.25, 0.30, 0.35, 0.10)
    case Query => Weights(0.20, 0.30, 0.20, 0.30)
    case Decision => Weights(0.25, 0.35, 0.25, 0.15)
    case Escalation => Weights(0.30, 0.25, 0.30, 0.15)
  }

  /** `None` is the lookup failure on a configuration that lacks one of the four weights. */
  function ResolveWeights(cfg: Option<WeightConfig>, c: IntentClass): Option<Weights> {
    if cfg.Some? && cfg.value.weights.Some? then
      var w := cfg.value.weights.value;
      if {"policy_score", "outcome_score", "risk_score", "context_fit_score"} <= w.Keys
      then Some(Weights(w["policy_score"], w["outcome_score"], w["risk_score"], w["context_fit_score"]))
      else None
    else Some(DefaultWeights(c))
  }

  predicate Convex(w: Weights) {
    w.policy >= 0.0 && w.outcome >= 0.0 && w.risk >= 0.0 && w.fit >= 0.0
    && w.policy + w.outcome + w.risk + w.fit == 1.0
  }

  function Dot(s: Scores, w: Weights): real {
    s.policy * w.policy + s.outcome * w.outcome + s.risk * w.risk + s.fit * w.fit
  }

  predicate UnitScores(s: Scores) {
    Unit(s.policy) && Unit(s.outcome) && Unit(s.risk) && Unit(s.fit)
  }

  /** The bounds the validated record insists on. */
  predicate Valid(e: Evaluated) {
    UnitScores(e.scores) && Unit(e.composite)
  }

  lemma DotInUnit(s: Scores, w: Weights)
    requires UnitScores(s) && Convex(w)
    ensures Unit(Dot(s, w)) && Unit(Round4(Dot(s, w)))
  {
    var a := Scaled(s.policy, w.policy);
    var b := Scaled(s.outcome, w.outcome);
    var c := Scaled(s.risk, w.risk);
    var d := Scaled(s.fit, w.fit);
    assert Dot(s, w) == a + b + c + d;
    Round4Properties(Dot(s, w), 0.0);
  }

  lemma Scaled(x: real, w: real) returns (p: real)
    requires Unit(x) && w >= 0.0
    ensures p == x * w && 0.0 <= p <= w
  {
    p := x * w;
    var q := (1.0 - x) * w;
    assert p >= 0.0 && q >= 0.0 && p + q == w;
  }

  /** Each score is weighted by its own weight, and nothing else enters the composite. */
  lemma DotIsLinear(s: Scores, t: Scores, w: Weights)
    ensures Dot(t, w) - Dot(s, w) == (t.policy - s.policy) * w.policy + (t.outcome - s.outcome) * w.outcome
                                     + (t.risk - s.risk) * w.risk + (t.fit - s.fit) * w.fit
    ensures Dot(Scores(0.0, 0.0, 0.0, 0.0), w) == 0.0
  {
    Apart(s.policy, t.policy, w.policy);
    Apart(s.outcome, t.outcome, w.outcome);
    Apart(s.risk, t.risk, w.risk);
    Apart(s.fit, t.fit, w.fit);
  }

  lemma Apart(x: real, y: real, w: real)
    ensures y * w - x * w == (y - x) * w
  {
  }

  /** Irreversibility, side effects and an agent actor can only raise the risk score;
      it never falls below the sensitivity of the entity. */
  lemma RiskGrows(o: PlanOption, p: PlanOption, entityClass: string, role: ActorRole)
    requires (p.reversible ==> o.reversible) && |o.sideEffects| <= |p.sideEffects|
    ensures Sensitivity(entityClass) <= RiskScore(o, role, entityClass) <= RiskScore(p, Agent, entityClass) <= 1.0
  {
    assert 0.0 <= |o.sideEffects| as real * 0.05 <= |p.sideEffects| as real * 0.05;
  }

  /** The risk counted in twentieths, with the table of entities. */
  function RiskUnits(o: PlanOption, role: ActorRole, entityClass: string): nat {
    var entity := match entityClass
      case "ML_MODEL" => 12 case "DATABASE" => 16 case "SCHEMA" => 18
      case "SERVICE" => 10 case "CLUSTER" => 14 case "FILE" => 4 case _ => 6;
    var effects := if |o.sideEffects| <= 4 then |o.sideEffects| else 4;
    (if o.reversible then 0 else 6) + entity + effects + (if role == Agent then 2 else 0)
  }

  /** Each part of the risk counts as documented, and the whole is cut at one. */
  lemma RiskInTwentieths(o: PlanOption, role: ActorRole, entityClass: string)
    ensures var units := RiskUnits(o, role, entityClass);
            RiskScore(o, role, entityClass) == if units <= 20 then units as real / 20.0 else 1.0
  {
    var n := |o.sideEffects| as real * 0.05;
    assert |o.sideEffects| <= 4 <==> n <= 0.2;
  }

  /** The clamp cuts in exactly for the listed combinations; for files and unnamed entities it never does. */
  lemma RiskSaturatesExactly(o: PlanOption, role: ActorRole, entityClass: string)
    ensures var final, agent, effects := !o.reversible, role == Agent, |o.sideEffects|;
            RiskScore(o, role, entityClass) == 1.0 <==>
              match entityClass
              case "SCHEMA" => final || agent || effects >= 2
              case "DATABASE" => final || effects >= 4 || (agent && effects >= 2)
              case "CLUSTER" => final || (agent && effects >= 4)
              case "ML_MODEL" => final && (agent || effects >= 2)
              case "SERVICE" => final && (effects >= 4 || (agent && effects >= 2))
              case _ => false
  {
  }

  // ---------------------------------------------------------------- which weights act

  /** The composite is the rounded sum of the four scores, each times the number given for it. */
  predicate ComposedOf(e: Evaluated, policy: real, outcome: real, risk: real, fit: real) {
    e.composite == Round4(WeightedSum(e.scores, policy, outcome, risk, fit))
  }

  function WeightedSum(s: Scores, policy: real, outcome: real, risk: real, fit: real): real {
    s.policy * policy + s.outcome * outcome + s.risk * risk + s.fit * fit
  }

  /** A fetched dictionary of weights without one of the four. */
  predicate LacksWeight(cfg: Option<WeightConfig>) {
    cfg.Some? && cfg.value.weights.Some? &&
    var w := cfg.value.weights.value;
    "policy_score" !in w || "outcome_score" !in w || "risk_score" !in w || "context_fit_score" !in w
  }

  /** The numbers come from the fetched dictionary, each under its own name; without one, from the intent class. */
  predicate ComposedAsConfigured(e: Evaluated, cfg: Option<WeightConfig>, c: IntentClass) {
    if cfg.Some? && cfg.value.weights.Some? then
      !LacksWeight(cfg) &&
      var w := cfg.value.weights.value;
      ComposedOf(e, w["policy_score"], w["outcome_score"], w["risk_score"], w["context_fit_score"])
    else
      match c
      case Execution => ComposedOf(e, 0.25, 0.30, 0.35, 0.10)
      case Query => ComposedOf(e, 0.20, 0.30, 0.20, 0.30)
      case Decision => ComposedOf(e, 0.25, 0.35, 0.25, 0.15)
      case Escalation => ComposedOf(e, 0.30, 0.25, 0.30, 0.15)
  }

  predicate Weighed(e: Evaluated, w: Weights) {
    e.composite == Round4(Dot(e.scores, w))
  }

  lemma WeighedIsConfigured(e: Evaluated, w: Weights, cfg: Option<WeightConfig>, c: IntentClass)
    requires ResolveWeights(cfg, c) == Some(w) && Weighed(e, w)
    ensures ComposedAsConfigured(e, cfg, c)
  {
    if cfg.Some? && cfg.value.weights.Some? {
      var d := cfg.value.weights.value;
      WeighedIsComposed(e, w, d["policy_score"], d["outcome_score"], d["risk_score"], d["context_fit_score"]);
    } else {
      match c
      case Execution => WeighedIsComposed(e, w, 0.25, 0.30, 0.35, 0.10);
      case Query => WeighedIsComposed(e, w, 0.20, 0.30, 0.20, 0.30);
      case Decision => WeighedIsComposed(e, w, 0.25, 0.35, 0.25, 0.15);
      case Escalation => WeighedIsComposed(e, w, 0.30, 0.25, 0.30, 0.15);
    }
  }

  lemma WeighedIsComposed(e: Evaluated, w: Weights, policy: real, outcome: real, risk: real, fit: real)
    requires Weighed(e, w) && w.policy == policy && w.outcome == outcome && w.risk == risk && w.fit == fit
    ensures ComposedOf(e, policy, outcome, risk, fit)
  {
    assert WeightedSum(e.scores, policy, outcome, risk, fit) == Dot(e.scores, w);
  }

  lemma ResolveFailsExactly(cfg: Option<WeightConfig>, c: IntentClass)
    ensures ResolveWeights(cfg, c).None? <==> LacksWeight(cfg)
  {
  }

  // ---------------------------------------------------------------- scoring

  datatype Setting = Setting(request: Request, manifest: Manifest, role: ActorRole, config: Option<WeightConfig>)

  function ScoresOf(c: Candidate, sig: string, at: Setting): Scores {
    Scores(PolicyScore(c.1.verdict), FirstMatch(at.manifest.patterns, sig),
           RiskScore(c.0, at.role, at.request.entityClass), FitScore(c.0, at.request.constraints))
  }

  /** One option's record; `None` when the signature or the record's validation raises. */
  function ScoreOne(c: Candidate, w: Weights, at: Setting): (r: Option<Evaluated>)
    ensures r.Some? ==> Valid(r.value) && r.value.id == c.0.id && r.value.composite == Round4(Dot(r.value.scores, w))
  {
    var sig := Signature(at.request.cls, c.0.actionType, at.request.entityClass, at.role);
    if sig.None? then None
    else
      var s := ScoresOf(c, sig.value, at);
      var e := Evaluated(c.0.id, c.1.verdict, s, Round4(Dot(s, w)),
                         s.risk > 0.6 || !c.0.reversible || at.role == Agent);
      if Valid(e) then Some(e) else None
  }

  /** Every candidate's record or failure. */
  function Attempts(cs: seq<Candidate>, w: Weights, at: Setting): (rs: seq<Option<Evaluated>>)
    ensures |rs| == |cs|
  {
    seq(|cs|, i requires 0 <= i < |cs| => ScoreOne(cs[i], w, at))
  }

  /** The records, unless one of them failed. */
  function Collect(rs: seq<Option<Evaluated>>): Option<seq<Evaluated>> {
    if rs == [] then Some([])
    else
      var n := |rs| - 1;
      var before := Collect(rs[..n]);
      if before.None? || rs[n].None? then None else Some(before.value + [rs[n].value])
  }

  function ScoreAll(cs: seq<Candidate>, w: Weights, at: Setting): Option<seq<Evaluated>> {
    Collect(Attempts(cs, w, at))
  }

  lemma {:induction false} CollectShape(rs: seq<Option<Evaluated>>)
    ensures Collect(rs).Some? <==> forall i :: 0 <= i < |rs| ==> rs[i].Some?
    ensures Collect(rs).Some? ==> |Collect(rs).value| == |rs|
    ensures Collect(rs).Some? ==> forall i :: 0 <= i < |rs| ==> Some(Collect(rs).value[i]) == rs[i]
    decreases |rs|
  {
    if rs != [] {
      var n := |rs| - 1;
      CollectShape(rs[..n]);
      assert forall i :: 0 <= i < n ==> rs[..n][i] == rs[i];
    }
  }

  /** One record per candidate, in order; scoring raises exactly when it raises for some candidate. */
  lemma ScoreAllShape(cs: seq<Candidate>, w: Weights, at: Setting)
    ensures ScoreAll(cs, w, at).Some? <==> forall i :: 0 <= i < |cs| ==> ScoreOne(cs[i], w, at).Some?
    ensures ScoreAll(cs, w, at).Some? ==> |ScoreAll(cs, w, at).value| == |cs|
    ensures ScoreAll(cs, w, at).Some? ==>
              forall i :: 0 <= i < |cs| ==> Some(ScoreAll(cs, w, at).value[i]) == ScoreOne(cs[i], w, at)
  {
    var rs := Attempts(cs, w, at);
    CollectShape(rs);
    assert forall i :: 0 <= i < |cs| ==> rs[i] == ScoreOne(cs[i], w, at);
  }

  lemma CollectStep(rs: seq<Option<Evaluated>>, n: nat)
    requires n < |rs|
    ensures Collect(rs[..n + 1]) ==
            if Collect(rs[..n]).None? || rs[n].None? then None else Some(Collect(rs[..n]).value + [rs[n].value])
  {
    assert rs[..n + 1][..n] == rs[..n];
  }

  /** The body of the scoring loop: the four scores, their product and the record. */
  method ScoreCandidate(c: Candidate, w: Weights, at: Setting) returns (r: Option<Evaluated>)
    ensures r == ScoreOne(c, w, at)
  {
    var sig := Signature(at.request.cls, c.0.actionType, at.request.entityClass, at.role);
    if sig.None? {
      return None;
    }
    var outcome := OutcomeScore(at.manifest.patterns, sig.value);
    var risk := ComputeRisk(c.0, at.role, at.request.entityClass);
    var s := Scores(PolicyScore(c.1.verdict), outcome, risk, FitScore(c.0, at.request.constraints));
    assert s == ScoresOf(c, sig.value, at);
    var composite := Dot(s, w);
    var simulate := risk > 0.6 || !c.0.reversible || at.role == Agent;
    var e := Evaluated(c.0.id, c.1.verdict, s, Round4(composite), simulate);
    return if Valid(e) then Some(e) else None;
  }

  /** Every record's composite is formed with the fetched weights, or with those of the intent class. */
  lemma ScoredAsConfigured(cs: seq<Candidate>, at: Setting)
    ensures var w := ResolveWeights(at.config, at.request.cls);
            if w.None? then LacksWeight(at.config)
            else !LacksWeight(at.config)
                 && (ScoreAll(cs, w.value, at).Some? ==>
                       forall e :: e in ScoreAll(cs, w.value, at).value ==>
                         Weighed(e, w.value) && ComposedAsConfigured(e, at.config, at.request.cls))
  {
    var w := ResolveWeights(at.config, at.request.cls);
    ResolveFailsExactly(at.config, at.request.cls);
    if w.Some? && ScoreAll(cs, w.value, at).Some? {
      var es := ScoreAll(cs, w.value, at).value;
      ScoreAllShape(cs, w.value, at);
      forall i | 0 <= i < |es|
        ensures Weighed(es[i], w.value) && ComposedAsConfigured(es[i], at.config, at.request.cls)
      {
        assert Some(es[i]) == ScoreOne(cs[i], w.value, at);
        WeighedIsConfigured(es[i], w.value, at.config, at.request.cls);
      }
    }
  }

  /** What one record says about its candidate: the table of verdicts, the risk in twentieths, the first matching
      pattern of the context signature, and the share of the constraints that are parameters. */
  lemma RecordMeans(c: Candidate, w: Weights, at: Setting)
    requires ScoreOne(c, w, at).Some?
    ensures var e := ScoreOne(c, w, at).value;
            && e.id == c.0.id && e.verdict == c.1.verdict && Reads(e.scores, c, at)
            && e.scores.risk == RiskScore(c.0, at.role, at.request.entityClass)
  {
    var sig := Signature(at.request.cls, c.0.actionType, at.request.entityClass, at.role).value;
    ScoresRead(c, sig, at);
  }

  lemma ScoresRead(c: Candidate, sig: string, at: Setting)
    requires Signature(at.request.cls, c.0.actionType, at.request.entityClass, at.role) == Some(sig)
    ensures Reads(ScoresOf(c, sig, at), c, at)
  {
    FitShare(c.0, at.request.constraints);
  }

  /** Policy, outcome and fit score of a candidate. */
  predicate Reads(s: Scores, c: Candidate, at: Setting) {
    var sig := Signature(at.request.cls, c.0.actionType, at.request.entityClass, at.role);
    && s.policy == (match c.1.verdict case Allow => 1.0 case AllowWithWarnings => 0.7 case Modify => 0.5
                                      case Defer => 0.3 case Block => 0.0)
    && sig.Some? && s.outcome == FirstMatch(at.manifest.patterns, sig.value)
    && IsShare(s.fit, c.0, at.request.constraints)
  }

  /** The share of the constraints, each counted once, that are parameters; one without any. */
  predicate IsShare(fit: real, o: PlanOption, constraints: seq<string>) {
    var wanted, met := Wanted(constraints), Met(o, constraints);
    if wanted == {} then fit == 1.0 else fit * |wanted| as real == |met| as real
  }

  lemma FitShare(o: PlanOption, constraints: seq<string>)
    ensures IsShare(FitScore(o, constraints), o, constraints)
  {
    var wanted, met := Wanted(constraints), Met(o, constraints);
    assert o.spec.params.Keys * wanted == met;
    if wanted != {} {
      Undivide(|met| as real, |wanted| as real);
      assert FitScore(o, constraints) == |met| as real / |wanted| as real;
    }
  }

  lemma Undivide(x: real, y: real)
    requires y > 0.0
    ensures (x / y) * y == x
  {
  }

  method Score(cs: seq<Candidate>, at: Setting) returns (r: Option<seq<Evaluated>>)
    ensures var w := ResolveWeights(at.config, at.request.cls);
            r == if w.None? then None else ScoreAll(cs, w.value, at)
    ensures LacksWeight(at.config) ==> r == None
    ensures r.Some? ==> forall e :: e in r.value ==> ComposedAsConfigured(e, at.config, at.request.cls)
  {
    ScoredAsConfigured(cs, at);
    var w := ResolveWeights(at.config, at.request.cls);
    if w.None? {
      return None;
    }
    ghost var rs := Attempts(cs, w.value, at);
    CollectShape(rs);
    var evaluated := [];
    for i := 0 to |cs|
      invariant Collect(rs[..i]) == Some(evaluated)
    {
      CollectStep(rs, i);
      var e := ScoreCandidate(cs[i], w.value, at);
      if e.None? {
        return None;
      }
      evaluated := evaluated + [e.value];
    }
    assert rs[..|cs|] == rs;
    return Some(evaluated);
  }

  /** Irreversible options, everything an agent asks for, and otherwise what touches databases, schemas and
      clusters, models with a side effect, and services with three. */
  predicate MustSimulate(c: Candidate, at: Setting) {
    var entity, effects := at.request.entityClass, |c.0.sideEffects|;
    !c.0.reversible || at.role == Agent || entity in {"DATABASE", "SCHEMA", "CLUSTER"}
    || (entity == "ML_MODEL" && effects >= 1) || (entity == "SERVICE" && effects >= 3)
  }

  /** The threshold on the risk score selects exactly these. */
  lemma SimulatedExactly(c: Candidate, w: Weights, at: Setting)
    requires ScoreOne(c, w, at).Some?
    ensures ScoreOne(c, w, at).value.simulate <==> MustSimulate(c, at)
  {
    DistinctNames();
  }

  lemma DistinctNames()
    ensures {"DATABASE", "SCHEMA", "CLUSTER"} !! {"ML_MODEL", "SERVICE", "FILE"}
  {
    assert "DATABASE"[0] == 'D' && "SCHEMA"[1] == 'C' && "CLUSTER"[0] == 'C';
    assert "ML_MODEL"[0] == 'M' && "SERVICE"[1] == 'E' && "FILE"[0] == 'F' && "SERVICE"[0] == 'S';
  }

  /** How good a dry-run verdict is. */
  function Standing(v: PolicyVerdict): nat {
    match v case Allow => 4 case AllowWithWarnings => 3 case Modify => 2 case Defer => 1 case Block => 0
  }

  /** A better verdict on the same option scores more, and never lowers the composite. */
  lemma BetterVerdictScoresMore(o: PlanOption, r: DryRun, better: DryRun, w: Weights, at: Setting)
    requires ScoreOne((o, r), w, at).Some? && ScoreOne((o, better), w, at).Some? && w.policy >= 0.0
    requires Standing(r.verdict) < Standing(better.verdict)
    ensures var e, f := ScoreOne((o, r), w, at).value, ScoreOne((o, better), w, at).value;
            e.scores.policy < f.scores.policy && e.composite <= f.composite
  {
    var e, f := ScoreOne((o, r), w, at).value, ScoreOne((o, better), w, at).value;
    MorePolicyScoresMore(e.scores, f.scores.policy, w);
    assert f.scores == e.scores.(policy := f.scores.policy);
    Round4Properties(Dot(e.scores, w), Dot(f.scores, w));
  }

  lemma MorePolicyScoresMore(s: Scores, p: real, w: Weights)
    requires s.policy <= p && w.policy >= 0.0
    ensures Dot(s, w) <= Dot(s.(policy := p), w)
  {
    var gain := (p - s.policy) * w.policy;
    assert gain >= 0.0;
    Apart(s.policy, p, w.policy);
  }

  predicate UnitPatterns(m: Manifest) {
    forall p :: p in m.patterns ==> Unit(p.successRate) && Unit(p.confidence)
  }

  lemma {:induction false} FirstMatchInUnit(patterns: seq<Pattern>, sig: string)
    requires forall p :: p in patterns ==> Unit(p.successRate) && Unit(p.confidence)
    ensures Unit(FirstMatch(patterns, sig))
  {
    if patterns != [] {
      assert patterns[0] in patterns;
      var product := Scaled(patterns[0].successRate, patterns[0].confidence);
      FirstMatchInUnit(patterns[1..], sig);
      assert Unit(product) && FirstMatch(patterns, sig) in {product, FirstMatch(patterns[1..], sig)};
    }
  }

  lemma FitInUnit(o: PlanOption, constraints: seq<string>)
    ensures Unit(FitScore(o, constraints))
  {
    var wanted := Wanted(constraints);
    var common := o.spec.params.Keys * wanted;
    if wanted != {} {
      SubsetSize(common, wanted);
      Ratio(|common| as real, |wanted| as real);
    }
  }

  lemma Ratio(x: real, y: real)
    requires 0.0 <= x <= y && y > 0.0
    ensures Unit(x / y)
  {
    var d := (y - x) / y;
    assert d >= 0.0 && x / y + d == 1.0;
  }

  /** The fit is perfect exactly when every declared constraint is a parameter of the plan. */
  lemma FitIsCoverage(o: PlanOption, constraints: seq<string>)
    ensures FitScore(o, constraints) == 1.0 <==> forall c :: c in constraints ==> c in o.spec.params
  {
    var wanted := Wanted(constraints);
    var common := o.spec.params.Keys * wanted;
    SubsetSize(common, wanted);
    assert common == wanted ==> forall c :: c in constraints ==> c in wanted && c in common;
    assert (forall c :: c in constraints ==> c in o.spec.params) ==> common == wanted;
    if wanted != {} {
      Whole(|common| as real, |wanted| as real);
    }
  }

  lemma Whole(x: real, y: real)
    requires y > 0.0
    ensures x / y == 1.0 <==> x == y
  {
    assert (x / y) * y == x && y / y == 1.0;
  }

  lemma SubsetSize<T>(a: set<T>, b: set<T>)
    requires a <= b
    ensures |a| <= |b| && (|a| == |b| <==> a == b)
  {
    assert b == a + (b - a) && |b| == |a| + |b - a|;
    assert b - a == {} <==> a == b;
  }

  /** Every score of every option lies in the unit interval, whatever its verdict, role and entity class. */
  lemma ScoresInUnit(c: Candidate, sig: string, at: Setting)
    requires UnitPatterns(at.manifest)
    ensures UnitScores(ScoresOf(c, sig, at))
  {
    FirstMatchInUnit(at.manifest.patterns, sig);
    FitInUnit(c.0, at.request.constraints);
  }

  /** With convex weights and unit patterns scoring fails only for an empty action type or entity class;
      the validated records are never rejected. */
  lemma ScoringNeverRejects(cs: seq<Candidate>, w: Weights, at: Setting)
    requires Convex(w) && UnitPatterns(at.manifest)
    ensures ScoreAll(cs, w, at).Some? <==>
            forall i :: 0 <= i < |cs| ==> cs[i].0.actionType != "" && at.request.entityClass != ""
  {
    ScoreAllShape(cs, w, at);
    forall i | 0 <= i < |cs|
      ensures ScoreOne(cs[i], w, at).Some? <==> cs[i].0.actionType != "" && at.request.entityClass != ""
    {
      var sig := Signature(at.request.cls, cs[i].0.actionType, at.request.entityClass, at.role);
      if sig.Some? {
        ScoresInUnit(cs[i], sig.value, at);
        DotInUnit(ScoresOf(cs[i], sig.value, at), w);
      }
    }
  }

  /** The built-in weights, and so the shipped profiles, which repeat two of them, are convex. */
  lemma DefaultsAreConvex(c: IntentClass)
    ensures Convex(DefaultWeights(c))
  {
  }

  // ---------------------------------------------------------------- rescoring

  function Composite(e: Evaluated): real {
    e.composite
  }

  function NeedsSimulation(es: seq<Evaluated>): seq<Evaluated> {
    if es == [] then [] else (if es[0].simulate then [es[0]] else []) + NeedsSimulation(es[1..])
  }

  function TopTwo(es: seq<Evaluated>): seq<Evaluated> {
    var ranked := StableSort.SortDesc(NeedsSimulation(es), Composite);
    if |ranked| <= 2 then ranked else ranked[..2]
  }

  /** The record after a projected violation. */
  function Bumped(e: Evaluated, w: Weights): Evaluated {
    var s := e.scores.(risk := Min(e.scores.risk + 0.3, 1.0));
    e.(scores := s, composite := Round4(Dot(s, w)))
  }

  /** Risk carries a positive weight: a projected violation never lowers the composite. */
  lemma ViolationNeverLowers(e: Evaluated, w: Weights)
    requires Consistent(e, w) && w.risk >= 0.0
    ensures Bumped(e, w).composite >= e.composite
    ensures Bumped(e, w).scores == e.scores.(risk := Bumped(e, w).scores.risk)
    ensures Bumped(e, w).scores.risk == if e.scores.risk <= 0.7 then e.scores.risk + 0.3 else 1.0
  {
    var r := Bumped(e, w).scores.risk;
    MoreRiskScoresMore(e.scores, r, w);
    Round4Properties(Dot(e.scores, w), Dot(e.scores.(risk := r), w));
  }

  lemma MoreRiskScoresMore(s: Scores, r: real, w: Weights)
    requires s.risk <= r && w.risk >= 0.0
    ensures Dot(s, w) <= Dot(s.(risk := r), w)
  {
    var gain := (r - s.risk) * w.risk;
    assert gain >= 0.0;
    Apart(s.risk, r, w.risk);
  }

  function Keyed(es: seq<Evaluated>): seq<(Uuid, Evaluated)> {
    seq(|es|, i requires 0 <= i < |es| => (es[i].id, es[i]))
  }

  /** `opt_map.get(id)`: the last candidate with that id. */
  function OptionOf(cs: seq<Candidate>, id: Uuid): (o: Option<PlanOption>)
    ensures o.Some? ==> exists c :: c in cs && c.0 == o.value && c.0.id == id
    ensures o.None? ==> forall c :: c in cs ==> c.0.id != id
  {
    if cs == [] then None
    else
      var n := |cs| - 1;
      if cs[n].0.id == id then Some(cs[n].0) else OptionOf(cs[..n], id)
  }

  type Projector = PlanOption -> bool

  predicate Violates(e: Evaluated, cs: seq<Candidate>, project: Projector) {
    OptionOf(cs, e.id).Some? && project(OptionOf(cs, e.id).value)
  }

  /** The dictionary of records after the first `n` of the chosen ones were projected. */
  function Projected(es: seq<Evaluated>, top: seq<Evaluated>, cs: seq<Candidate>, project: Projector, w: Weights):
      Dict<Uuid, Evaluated>
  {
    if top == [] then FromPairs(Keyed(es))
    else
      var n := |top| - 1;
      var before := Projected(es, top[..n], cs, project, w);
      if Violates(top[n], cs, project) then Put(before, top[n].id, Bumped(top[n], w)) else before
  }

  function Rescored(es: seq<Evaluated>, cs: seq<Candidate>, project: Projector, w: Weights): seq<Evaluated> {
    if NeedsSimulation(es) == [] then es else Values(Projected(es, TopTwo(es), cs, project, w))
  }

  method SimulateAndRescore(es: seq<Evaluated>, cs: seq<Candidate>, project: Projector, w: Weights)
    returns (r: seq<Evaluated>)
    ensures r == Rescored(es, cs, project, w)
  {
    if NeedsSimulation(es) == [] {
      return es;
    }
    var top := TopTwo(es);
    var rescored := FromPairs(Keyed(es));
    for i := 0 to |top|
      invariant rescored == Projected(es, top[..i], cs, project, w)
    {
      assert top[..i + 1][..i] == top[..i];
      var e := top[i];
      if Violates(e, cs, project) {
        rescored := Put(rescored, e.id, Bumped(e, w));
      }
    }
    assert top[..|top|] == top;
    return Values(rescored);
  }

  ghost predicate DistinctRecords(es: seq<Evaluated>) {
    forall i, j :: 0 <= i < j < |es| ==> es[i].id != es[j].id
  }

  lemma {:induction false} NeedsSimulationIsFilter(es: seq<Evaluated>)
    ensures forall e :: e in NeedsSimulation(es) <==> e in es && e.simulate
    ensures |NeedsSimulation(es)| <= |es|
    ensures DistinctRecords(es) ==> DistinctRecords(NeedsSimulation(es))
  {
    if es != [] {
      NeedsSimulationIsFilter(es[1..]);
      assert es == [es[0]] + es[1..];
      var rest := NeedsSimulation(es[1..]);
      if DistinctRecords(es) {
        forall j | 0 <= j < |rest| ensures rest[j].id != es[0].id {
          assert rest[j] in es[1..];
        }
      }
    }
  }

  lemma {:induction false} NeedsSimulationKeepsAhead(es: seq<Evaluated>, e: Evaluated, o: Evaluated)
    requires e.simulate && o.simulate
    ensures StableSort.Ahead(NeedsSimulation(es), e, o) <==> StableSort.Ahead(es, e, o)
  {
    if es != [] {
      NeedsSimulationKeepsAhead(es[1..], e, o);
      if es[0].simulate {
        assert NeedsSimulation(es)[1..] == NeedsSimulation(es[1..]);
      } else {
        assert NeedsSimulation(es) == NeedsSimulation(es[1..]);
      }
    }
  }

  /** Ties go to the record met first. */
  lemma TopTwoBreaksTies(es: seq<Evaluated>, e: Evaluated, o: Evaluated)
    requires e.simulate && o.simulate && e.composite == o.composite
    requires StableSort.Ahead(es, e, o) && o in TopTwo(es)
    ensures e in TopTwo(es)
  {
    NeedsSimulationKeepsAhead(es, e, o);
    StableSort.SortKeepsAhead(NeedsSimulation(es), Composite, e, o);
    AheadInTwo(StableSort.SortDesc(NeedsSimulation(es), Composite), e, o);
  }

  lemma AheadInTwo(ranked: seq<Evaluated>, e: Evaluated, o: Evaluated)
    requires StableSort.Ahead(ranked, e, o)
    requires var top := if |ranked| <= 2 then ranked else ranked[..2]; o in top
    ensures var top := if |ranked| <= 2 then ranked else ranked[..2]; e in top
  {
    if ranked[0] != e {
      assert |ranked| >= 2 && ranked[1..][0] == ranked[1];
      assert ranked[1] == e;
    }
  }

  /** As many as two of those that need simulation are chosen, and nothing left unchosen that needs it scores higher. */
  lemma TopTwoDominates(es: seq<Evaluated>)
    ensures |TopTwo(es)| == if |NeedsSimulation(es)| <= 2 then |NeedsSimulation(es)| else 2
    ensures forall e :: e in TopTwo(es) ==> e in es && e.simulate
    ensures forall e, o :: e in TopTwo(es) && o in es && o.simulate && o !in TopTwo(es) ==> o.composite <= e.composite
  {
    var sims := NeedsSimulation(es);
    var ranked, top := StableSort.SortDesc(sims, Composite), TopTwo(es);
    NeedsSimulationIsFilter(es);
    StableSort.SortProperties(sims, Composite);
    forall e | e in top ensures e in es && e.simulate {
      assert e in multiset(ranked);
    }
    forall e, o | e in top && o in es && o.simulate && o !in top ensures o.composite <= e.composite {
      assert o in multiset(sims) && o in multiset(ranked);
      RankedBehind(ranked, e, o);
    }
  }

  lemma RankedBehind(ranked: seq<Evaluated>, e: Evaluated, o: Evaluated)
    requires StableSort.Descending(ranked, Composite) && o in ranked
    requires var top := if |ranked| <= 2 then ranked else ranked[..2]; e in top && o !in top
    ensures o.composite <= e.composite
  {
    var p :| 0 <= p < |ranked| && ranked[p] == o;
    var q :| 0 <= q < |ranked| && q < 2 && ranked[q] == e;
    assert p >= 2;
    StableSort.DescendingPairs(ranked, Composite, q, p);
  }

  lemma KeyedDistinct(es: seq<Evaluated>)
    requires DistinctRecords(es)
    ensures DistinctKeys(Keyed(es)) && FromPairs(Keyed(es)) == Keyed(es)
  {
    FromPairsShape(Keyed(es));
  }

  /** The records with the violating ones among `top` replaced. */
  function Replaced(es: seq<Evaluated>, top: seq<Evaluated>, cs: seq<Candidate>, project: Projector, w: Weights):
      (rs: seq<Evaluated>)
    ensures |rs| == |es| && forall i :: 0 <= i < |es| ==> rs[i].id == es[i].id
  {
    seq(|es|, i requires 0 <= i < |es| =>
      if es[i] in top && Violates(es[i], cs, project) then Bumped(es[i], w) else es[i])
  }

  lemma {:induction false} ProjectedIsReplaced(
    es: seq<Evaluated>, top: seq<Evaluated>, cs: seq<Candidate>, project: Projector, w: Weights)
    requires DistinctRecords(es) && forall e :: e in top ==> e in es
    ensures Projected(es, top, cs, project, w) == Keyed(Replaced(es, top, cs, project, w))
    decreases |top|
  {
    KeyedDistinct(es);
    if top == [] {
      assert Replaced(es, [], cs, project, w) == es;
    } else {
      var n := |top| - 1;
      ProjectedIsReplaced(es, top[..n], cs, project, w);
      assert top[n] in top && top == top[..n] + [top[n]];
      var p :| 0 <= p < |es| && es[p] == top[n];
      ReplacedStep(es, top[..n], p, cs, project, w);
      KeyedPut(Replaced(es, top[..n], cs, project, w), p, Bumped(es[p], w));
    }
  }

  lemma ReplacedStep(
    es: seq<Evaluated>, top: seq<Evaluated>, p: nat, cs: seq<Candidate>, project: Projector, w: Weights)
    requires DistinctRecords(es) && p < |es|
    ensures Replaced(es, top + [es[p]], cs, project, w) ==
            if Violates(es[p], cs, project) then Replaced(es, top, cs, project, w)[p := Bumped(es[p], w)]
            else Replaced(es, top, cs, project, w)
  {
    forall i | 0 <= i < |es| && i != p ensures es[i] in top + [es[p]] <==> es[i] in top {
      assert es[i].id != es[p].id;
    }
  }

  lemma KeyedPut(rs: seq<Evaluated>, p: nat, r: Evaluated)
    requires DistinctRecords(rs) && p < |rs| && r.id == rs[p].id
    ensures Put(Keyed(rs), r.id, r) == Keyed(rs[p := r])
  {
    PutOld(Keyed(rs), p, r);
  }

  lemma NotThree(es: seq<Evaluated>, top: seq<Evaluated>, i: nat, j: nat, k: nat)
    requires DistinctRecords(es) && |top| <= 2 && i < j < k < |es|
    ensures es[i] !in top || es[j] !in top || es[k] !in top
  {
    assert es[i].id != es[j].id && es[j].id != es[k].id && es[i].id != es[k].id;
  }

  /** Rescoring for an arbitrary projector and distinct ids: a record changes exactly when it is one of the
      chosen two and its option violates; then only risk and composite change, by the stated amounts. */
  lemma RescoringFrame(es: seq<Evaluated>, cs: seq<Candidate>, project: Projector, w: Weights)
    requires DistinctRecords(es)
    ensures Rescored(es, cs, project, w) == Replaced(es, TopTwo(es), cs, project, w)
    ensures |Rescored(es, cs, project, w)| == |es|
    ensures forall i :: 0 <= i < |es| ==> Rescored(es, cs, project, w)[i].id == es[i].id
    ensures forall i, j, k :: 0 <= i < j < k < |es| ==>
              es[i] == Rescored(es, cs, project, w)[i] || es[j] == Rescored(es, cs, project, w)[j]
              || es[k] == Rescored(es, cs, project, w)[k]
  {
    RescoredIsReplaced(es, cs, project, w);
    TopTwoDominates(es);
    forall i: nat, j: nat, k: nat | i < j < k < |es|
      ensures es[i] !in TopTwo(es) || es[j] !in TopTwo(es) || es[k] !in TopTwo(es)
    {
      NotThree(es, TopTwo(es), i, j, k);
    }
  }

  lemma RescoredIsReplaced(es: seq<Evaluated>, cs: seq<Candidate>, project: Projector, w: Weights)
    requires DistinctRecords(es)
    ensures Rescored(es, cs, project, w) == Replaced(es, TopTwo(es), cs, project, w)
  {
    TopTwoDominates(es);
    ProjectedIsReplaced(es, TopTwo(es), cs, project, w);
    var rs := Replaced(es, TopTwo(es), cs, project, w);
    assert Values(Keyed(rs)) == rs;
    if NeedsSimulation(es) == [] {
      assert rs == es;
    }
  }

  /** A projector that never reports a violation, as the shipped one, leaves the records as they are. */
  lemma ShippedProjectorIsIdentity(es: seq<Evaluated>, cs: seq<Candidate>, w: Weights)
    requires DistinctRecords(es)
    ensures Rescored(es, cs, _ => false, w) == es
  {
    RescoringFrame(es, cs, _ => false, w);
    assert Replaced(es, TopTwo(es), cs, _ => false, w) == es;
  }

  /** Before and after rescoring every record is within bounds and its composite is the rounded product. */
  predicate Consistent(e: Evaluated, w: Weights) {
    Valid(e) && e.composite == Round4(Dot(e.scores, w))
  }

  lemma RescoringStaysConsistent(es: seq<Evaluated>, cs: seq<Candidate>, project: Projector, w: Weights)
    requires Convex(w) && forall e :: e in es ==> Consistent(e, w)
    ensures forall e :: e in Rescored(es, cs, project, w) ==> Consistent(e, w)
  {
    forall r | r in Rescored(es, cs, project, w) ensures Consistent(r, w) {
      var e := RescoredStems(es, cs, project, w, r);
      DotInUnit(Bumped(e, w).scores, w);
    }
  }

  /** Where a record of the rescored list comes from. */
  ghost predicate RescoredFrom(r: Evaluated, e: Evaluated, es: seq<Evaluated>, cs: seq<Candidate>, project: Projector, w: Weights) {
    e in es && (r == e || (r == Bumped(e, w) && e.simulate && Violates(e, cs, project)))
  }

  /** For any ids: every rescored record is a scored one, or a simulated one whose option violates, with its
      risk and composite renewed. */
  lemma RescoredStems(es: seq<Evaluated>, cs: seq<Candidate>, project: Projector, w: Weights, r: Evaluated)
    returns (e: Evaluated)
    requires r in Rescored(es, cs, project, w)
    ensures RescoredFrom(r, e, es, cs, project, w)
  {
    if NeedsSimulation(es) == [] {
      e := r;
    } else {
      var top := TopTwo(es);
      TopTwoDominates(es);
      var d := Projected(es, top, cs, project, w);
      var i :| 0 <= i < |d| && d[i].1 == r;
      assert d[i] in d;
      e := ProjectedStems(es, top, cs, project, w, d[i]);
    }
  }

  lemma {:induction false} ProjectedStems(
    es: seq<Evaluated>, top: seq<Evaluated>, cs: seq<Candidate>, project: Projector, w: Weights, p: (Uuid, Evaluated))
    returns (e: Evaluated)
    requires forall t :: t in top ==> t in es && t.simulate
    requires p in Projected(es, top, cs, project, w)
    ensures RescoredFrom(p.1, e, es, cs, project, w)
    decreases |top|
  {
    if top == [] {
      FromPairsPairs(Keyed(es));
      e := p.1;
    } else {
      var n := |top| - 1;
      var before := Projected(es, top[..n], cs, project, w);
      assert top[n] in top;
      PutPairs(before, top[n].id, Bumped(top[n], w));
      if p in before {
        e := ProjectedStems(es, top[..n], cs, project, w, p);
      } else {
        e := top[n];
      }
    }
  }

  /** A record violates when the last candidate of its id is projected to. */
  lemma {:induction false} ViolatesExactly(e: Evaluated, cs: seq<Candidate>, project: Projector, i: nat)
    requires i < |cs| && cs[i].0.id == e.id && forall j :: i < j < |cs| ==> cs[j].0.id != e.id
    ensures Violates(e, cs, project) <==> project(cs[i].0)
    decreases |cs|
  {
    if i < |cs| - 1 {
      ViolatesExactly(e, cs[..|cs| - 1], project, i);
    }
  }

  /** The scored records, candidate by candidate. */
  lemma ScoredRecords(cs: seq<Candidate>, w: Weights, at: Setting)
    requires ScoreAll(cs, w, at).Some?
    ensures var es := ScoreAll(cs, w, at).value;
            && |es| == |cs|
            && forall i :: 0 <= i < |es| ==> es[i].id == cs[i].0.id && Consistent(es[i], w)
                                             && (es[i].simulate <==> MustSimulate(cs[i], at))
  {
    var es := ScoreAll(cs, w, at).value;
    ScoreAllShape(cs, w, at);
    forall i | 0 <= i < |es|
      ensures es[i].id == cs[i].0.id && Consistent(es[i], w) && (es[i].simulate <==> MustSimulate(cs[i], at))
    {
      assert Some(es[i]) == ScoreOne(cs[i], w, at);
      SimulatedExactly(cs[i], w, at);
    }
  }

  // ---------------------------------------------------------------- duplicate ids

  ghost predicate Names(es: seq<Evaluated>, id: Uuid) {
    exists e :: e in es && e.id == id
  }

  lemma {:induction false} ProjectedKeys(
    es: seq<Evaluated>, top: seq<Evaluated>, cs: seq<Candidate>, project: Projector, w: Weights)
    requires forall e :: e in top ==> e in es
    ensures DistinctKeys(Projected(es, top, cs, project, w))
    ensures forall id :: HasKey(Projected(es, top, cs, project, w), id) <==> Names(es, id)
    ensures |Projected(es, top, cs, project, w)| == |FromPairs(Keyed(es))|
    ensures forall p :: p in Projected(es, top, cs, project, w) ==> p.0 == p.1.id
    decreases |top|
  {
    if top == [] {
      FromPairsShape(Keyed(es));
      FromPairsPairs(Keyed(es));
      forall id ensures HasKey(Keyed(es), id) <==> Names(es, id) {
        if Names(es, id) {
          var e :| e in es && e.id == id;
          var i :| 0 <= i < |es| && es[i] == e;
          assert Keyed(es)[i].0 == id;
        }
      }
    } else {
      var n := |top| - 1;
      var e, before := top[n], Projected(es, top[..n], cs, project, w);
      ProjectedKeys(es, top[..n], cs, project, w);
      assert e in top && Names(es, e.id);
      if Violates(e, cs, project) {
        PutShape(before, e.id, Bumped(e, w));
        PutPairs(before, e.id, Bumped(e, w));
      }
    }
  }

  /** For any ids: rescoring names exactly the same options, and drops a record
      exactly when a simulation is due and two records share an id. */
  lemma RescoringKeepsIds(es: seq<Evaluated>, cs: seq<Candidate>, project: Projector, w: Weights)
    ensures forall id :: Names(Rescored(es, cs, project, w), id) <==> Names(es, id)
    ensures |Rescored(es, cs, project, w)| == |es| <==> NeedsSimulation(es) == [] || DistinctRecords(es)
  {
    if NeedsSimulation(es) != [] {
      TopTwoDominates(es);
      var d := Projected(es, TopTwo(es), cs, project, w);
      ProjectedKeys(es, TopTwo(es), cs, project, w);
      KeyedSize(es);
      forall id ensures Names(Values(d), id) <==> HasKey(d, id) {
        NamesAreKeys(d, id);
      }
    }
  }

  /** Rescoring leaves distinct ids, unless no simulation is due and the ids repeated before. */
  lemma RescoredDistinct(es: seq<Evaluated>, cs: seq<Candidate>, project: Projector, w: Weights)
    ensures DistinctRecords(Rescored(es, cs, project, w)) <==> DistinctRecords(es) || NeedsSimulation(es) != []
  {
    if NeedsSimulation(es) != [] {
      TopTwoDominates(es);
      ProjectedKeys(es, TopTwo(es), cs, project, w);
      var d := Projected(es, TopTwo(es), cs, project, w);
      assert forall i :: 0 <= i < |d| ==> d[i] in d && Values(d)[i].id == d[i].0;
    }
  }

  lemma KeyedSize(es: seq<Evaluated>)
    ensures |FromPairs(Keyed(es))| == |es| <==> DistinctRecords(es)
  {
    FromPairsShape(Keyed(es));
    assert forall i :: 0 <= i < |es| ==> Keyed(es)[i].0 == es[i].id;
  }

  lemma NamesAreKeys(d: Dict<Uuid, Evaluated>, id: Uuid)
    requires forall p :: p in d ==> p.0 == p.1.id
    ensures Names(Values(d), id) <==> HasKey(d, id)
  {
    if HasKey(d, id) {
      var i :| 0 <= i < |d| && d[i].0 == id;
      assert d[i] in d && Values(d)[i] in Values(d);
    }
    if Names(Values(d), id) {
      var e :| e in Values(d) && e.id == id;
      var i :| 0 <= i < |d| && Values(d)[i] == e;
      assert d[i] in d;
    }
  }
}
