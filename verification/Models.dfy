// Values exchanged between the stages of a decision pass.
module Models {

  datatype Option<+T> = None | Some(value: T)

  type Uuid = nat

  datatype ActorRole = Admin | Operator | Viewer | Agent

  datatype IntentClass = Query | Decision | Execution | Escalation

  datatype PolicyVerdict = Allow | AllowWithWarnings | Modify | Defer | Block

  datatype GenerationPath = ByModel | ByRules

  datatype ActionSpec = ActionSpec(kind: string, target: string, params: map<string, string>)

  datatype PlanOption = PlanOption(
    id: Uuid, actionType: string, spec: ActionSpec, sideEffects: seq<string>, reversible: bool, payloadHash: string)

  datatype DryRun = DryRun(optionId: Uuid, verdict: PolicyVerdict, modified: Option<ActionSpec>)

  datatype Request = Request(cls: IntentClass, entityClass: string, constraints: seq<string>)

  datatype Pattern = Pattern(signature: string, successRate: real, confidence: real)

  datatype Manifest = Manifest(stateVersion: string, patterns: seq<Pattern>)

  /** What survives the policy filter: an option, perhaps with a replaced spec, and its response. */
  type Candidate = (PlanOption, DryRun)
}
