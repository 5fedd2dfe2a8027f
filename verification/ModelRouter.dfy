// Model catalog, routing per intent, and option generation with its fallbacks.
module ModelRouter {
  import opened Models
  import opened OrderedDict
  import StableSort

  datatype ModelSpec = ModelSpec(id: string, costTier: int)

  /** An entry of the configured override list; a malformed one raises when it is read. */
  datatype Item = Entry(spec: ModelSpec) | Malformed

  const PRO: string := "deepseek-v4-pro"
  const REASONER: string := "deepseek-v4-reasoner"
  const LITE: string := "deepseek-v4-lite"

  const DEFAULT_MODELS: Dict<string, ModelSpec> := [
    (PRO, ModelSpec(PRO, 3)), (REASONER, ModelSpec(REASONER, 3)), (LITE, ModelSpec(LITE, 1))]

  function Override(d: Dict<string, ModelSpec>, raw: seq<Item>): Dict<string, ModelSpec>
    decreases |raw|
  {
    if raw == [] || raw[0].Malformed? then d else Override(Put(d, raw[0].spec.id, raw[0].spec), raw[1..])
  }

  function Registry(raw: seq<Item>): Dict<string, ModelSpec> {
    Override(DEFAULT_MODELS, raw)
  }

  /** The catalog entry by entry; the first malformed one ends the override. */
  method BuildRegistry(raw: seq<Item>) returns (models: Dict<string, ModelSpec>)
    ensures models == Registry(raw)
  {
    models := DEFAULT_MODELS;
    var i := 0;
    while i < |raw|
      invariant i <= |raw| && Override(models, raw[i..]) == Registry(raw)
    {
      if raw[i].Malformed? {
        return;
      }
      models := Put(models, raw[i].spec.id, raw[i].spec);
      i := i + 1;
    }
  }

  function Tiers(intent: string, modelId: string): seq<string> {
    if intent == "EXECUTION" || intent == "DECISION" then [PRO, REASONER]
    else if intent == "ESCALATION" then [REASONER, LITE]
    else if intent == "QUERY" then [LITE, PRO]
    else [modelId]
  }

  function Known(ids: seq<string>, d: Dict<string, ModelSpec>): seq<string> {
    if ids == [] then [] else (if Find(d, ids[0]).Some? then [ids[0]] else []) + Known(ids[1..], d)
  }

  function FallbackChain(intent: string, modelId: string, raw: seq<Item>): seq<string> {
    var chain := Known(Tiers(intent, modelId), Registry(raw));
    if chain == [] && Find(Registry(raw), modelId).Some? then [modelId] else chain
  }

  datatype Budget = Cheap | Quality | Balanced

  function Specs(ids: seq<string>, d: Dict<string, ModelSpec>): seq<ModelSpec> {
    if ids == [] then [] else
      var hit := Find(d, ids[0]);
      (if hit.Some? then [hit.value] else []) + Specs(ids[1..], d)
  }

  function Dearness(m: ModelSpec): real {
    m.costTier as real
  }

  function Cheapness(m: ModelSpec): real {
    -(m.costTier as real)
  }

  function SelectModel(intent: string, budget: Budget, modelId: string, raw: seq<Item>): Option<ModelSpec> {
    var d := Registry(raw);
    var candidates := Specs(Tiers(intent, modelId), d);
    if candidates == [] then
      if Find(d, modelId).Some? then Find(d, modelId) else if d == [] then None else Some(d[0].1)
    else
      var ranked := match budget
        case Cheap => StableSort.SortDesc(candidates, Cheapness)
        case Quality => StableSort.SortDesc(candidates, Dearness)
        case Balanced => candidates;
      if ranked == [] then None else Some(ranked[0])
  }

  predicate FourIntents(intent: string) {
    intent == "EXECUTION" || intent == "DECISION" || intent == "ESCALATION" || intent == "QUERY"
  }

  /** The built-in models survive every override list, and every key names its own entry. */
  predicate Sound(d: Dict<string, ModelSpec>) {
    Find(d, PRO).Some? && Find(d, REASONER).Some? && Find(d, LITE).Some?
    && d != [] && forall p :: p in d ==> p.1.id == p.0
  }

  lemma {:induction false} PutKeepsNames(d: Dict<string, ModelSpec>, m: ModelSpec)
    requires forall p :: p in d ==> p.1.id == p.0
    ensures forall p :: p in Put(d, m.id, m) ==> p.1.id == p.0
    ensures Put(d, m.id, m) != []
  {
    if d != [] && d[0].0 != m.id {
      PutKeepsNames(d[1..], m);
    }
  }

  lemma {:induction false} OverrideIsSound(d: Dict<string, ModelSpec>, raw: seq<Item>)
    requires Sound(d)
    ensures Sound(Override(d, raw))
    decreases |raw|
  {
    if raw != [] && raw[0].Entry? {
      var m := raw[0].spec;
      PutKeepsNames(d, m);
      FindPut(d, m.id, m, PRO);
      FindPut(d, m.id, m, REASONER);
      FindPut(d, m.id, m, LITE);
      OverrideIsSound(Put(d, m.id, m), raw[1..]);
    }
  }

  lemma RegistryIsSound(raw: seq<Item>)
    ensures Sound(Registry(raw))
  {
    assert PRO != REASONER && PRO != LITE && REASONER != LITE by {
      assert PRO[12] == 'p' && REASONER[12] == 'r' && LITE[12] == 'l';
    }
    assert Find(DEFAULT_MODELS, PRO).Some?;
    assert Find(DEFAULT_MODELS[1..], REASONER).Some? && Find(DEFAULT_MODELS[1..][1..], LITE).Some?;
    OverrideIsSound(DEFAULT_MODELS, raw);
  }

  lemma {:induction false} FindNames(d: Dict<string, ModelSpec>, id: string)
    requires forall p :: p in d ==> p.1.id == p.0
    ensures Find(d, id).Some? ==> Find(d, id).value.id == id
  {
    if d != [] {
      assert d[0] in d;
      FindNames(d[1..], id);
    }
  }

  lemma {:induction false} KnownAndSpecs(ids: seq<string>, d: Dict<string, ModelSpec>)
    requires forall p :: p in d ==> p.1.id == p.0
    ensures |Known(ids, d)| == |Specs(ids, d)|
    ensures forall i :: 0 <= i < |Known(ids, d)| ==> Specs(ids, d)[i].id == Known(ids, d)[i]
    ensures (forall id :: id in ids ==> Find(d, id).Some?) ==> Known(ids, d) == ids
  {
    if ids != [] {
      FindNames(d, ids[0]);
      KnownAndSpecs(ids[1..], d);
      assert ids == [ids[0]] + ids[1..];
    }
  }

  /** Before position `n` every entry can be read, and at `n` the list ends or breaks off. */
  predicate ReadsUpTo(raw: seq<Item>, n: nat) {
    n <= |raw| && (forall j :: 0 <= j < n ==> raw[j].Entry?) && (n < |raw| ==> raw[n].Malformed?)
  }

  lemma {:induction false} OverrideHolds(d: Dict<string, ModelSpec>, raw: seq<Item>, id: string, n: nat, i: nat)
    requires ReadsUpTo(raw, n)
    ensures i < n && raw[i].spec.id == id && (forall j :: i < j < n ==> raw[j].spec.id != id) ==>
              Find(Override(d, raw), id) == Some(raw[i].spec)
    ensures (forall j :: 0 <= j < n ==> raw[j].spec.id != id) ==> Find(Override(d, raw), id) == Find(d, id)
    decreases n
  {
    if n > 0 {
      var m := raw[0].spec;
      FindPut(d, m.id, m, id);
      if i > 0 {
        OverrideHolds(Put(d, m.id, m), raw[1..], id, n - 1, i - 1);
      } else {
        OverrideHolds(Put(d, m.id, m), raw[1..], id, n - 1, 0);
      }
    }
  }

  /** What the catalog holds for an id: the last override in front of the first malformed entry, or else the
      built-in model; the built-in ones have cost tiers three, three and one. */
  lemma RegistryHolds(raw: seq<Item>, id: string, n: nat, i: nat)
    requires ReadsUpTo(raw, n)
    ensures i < n && raw[i].spec.id == id && (forall j :: i < j < n ==> raw[j].spec.id != id) ==>
              Find(Registry(raw), id) == Some(raw[i].spec)
    ensures (forall j :: 0 <= j < n ==> raw[j].spec.id != id) ==>
              Find(Registry(raw), id) ==
                match id
                case "deepseek-v4-pro" => Some(ModelSpec(id, 3))
                case "deepseek-v4-reasoner" => Some(ModelSpec(id, 3))
                case "deepseek-v4-lite" => Some(ModelSpec(id, 1))
                case _ => None
  {
    OverrideHolds(DEFAULT_MODELS, raw, id, n, i);
    BuiltIn(id);
  }

  lemma BuiltIn(id: string)
    ensures Find(DEFAULT_MODELS, id) ==
            match id
            case "deepseek-v4-pro" => Some(ModelSpec(id, 3))
            case "deepseek-v4-reasoner" => Some(ModelSpec(id, 3))
            case "deepseek-v4-lite" => Some(ModelSpec(id, 1))
            case _ => None
  {
    var last := [(LITE, ModelSpec(LITE, 1))];
    var two := [(REASONER, ModelSpec(REASONER, 3))] + last;
    assert DEFAULT_MODELS[1..] == two && two[1..] == last && last[1..] == [];
    assert Find(last, id) == if id == LITE then Some(ModelSpec(LITE, 1)) else None;
    assert Find(two, id) == if id == REASONER then Some(ModelSpec(REASONER, 3)) else Find(last, id);
    assert Find(DEFAULT_MODELS, id) == if id == PRO then Some(ModelSpec(PRO, 3)) else Find(two, id);
  }

  /** The chains by name. Another intent tries the configured model, when the catalog knows it. */
  lemma ChainTable(modelId: string, raw: seq<Item>, intent: string)
    ensures FallbackChain("EXECUTION", modelId, raw) == ["deepseek-v4-pro", "deepseek-v4-reasoner"]
    ensures FallbackChain("DECISION", modelId, raw) == ["deepseek-v4-pro", "deepseek-v4-reasoner"]
    ensures FallbackChain("ESCALATION", modelId, raw) == ["deepseek-v4-reasoner", "deepseek-v4-lite"]
    ensures FallbackChain("QUERY", modelId, raw) == ["deepseek-v4-lite", "deepseek-v4-pro"]
    ensures !FourIntents(intent) ==>
              FallbackChain(intent, modelId, raw) == if Find(Registry(raw), modelId).Some? then [modelId] else []
    ensures !FourIntents(intent) ==>
              forall b :: SelectModel(intent, b, modelId, raw) ==
                if Find(Registry(raw), modelId).Some? then Find(Registry(raw), modelId)
                else Find(Registry(raw), "deepseek-v4-pro")
  {
    ChainIsHeadedByBalanced("EXECUTION", modelId, raw);
    ChainIsHeadedByBalanced("DECISION", modelId, raw);
    ChainIsHeadedByBalanced("ESCALATION", modelId, raw);
    ChainIsHeadedByBalanced("QUERY", modelId, raw);
    if !FourIntents(intent) {
      OneModel(modelId, Registry(raw));
      FirstStays(DEFAULT_MODELS, raw);
    }
  }

  /** Overriding never moves the first entry. */
  lemma {:induction false} FirstStays(d: Dict<string, ModelSpec>, raw: seq<Item>)
    requires d != []
    ensures Override(d, raw) != [] && Override(d, raw)[0].0 == d[0].0
    decreases |raw|
  {
    if raw != [] && raw[0].Entry? {
      FirstStays(Put(d, raw[0].spec.id, raw[0].spec), raw[1..]);
    }
  }

  /** A list of one id. */
  lemma OneModel(id: string, d: Dict<string, ModelSpec>)
    ensures Known([id], d) == if Find(d, id).Some? then [id] else []
    ensures Specs([id], d) == if Find(d, id).Some? then [Find(d, id).value] else []
    ensures forall m: ModelSpec :: StableSort.SortDesc([m], Cheapness) == [m] && StableSort.SortDesc([m], Dearness) == [m]
  {
    assert [id][1..] == [];
    forall m: ModelSpec ensures StableSort.SortDesc([m], Cheapness) == [m] && StableSort.SortDesc([m], Dearness) == [m] {
      assert [m][1..] == [];
    }
  }

  /** For the four intents and every override list, malformed entries anywhere included, the chain is the
      whole tier list, so never empty, and is headed by the balanced choice. */
  lemma ChainIsHeadedByBalanced(intent: string, modelId: string, raw: seq<Item>)
    requires FourIntents(intent)
    ensures FallbackChain(intent, modelId, raw) == Tiers(intent, modelId) && |Tiers(intent, modelId)| == 2
    ensures SelectModel(intent, Balanced, modelId, raw).Some?
    ensures SelectModel(intent, Balanced, modelId, raw).value.id == FallbackChain(intent, modelId, raw)[0]
  {
    RegistryIsSound(raw);
    KnownAndSpecs(Tiers(intent, modelId), Registry(raw));
  }

  /** The other budgets return the earliest candidate of least, respectively greatest, cost tier. */
  lemma BudgetPicksExtreme(intent: string, modelId: string, raw: seq<Item>) returns (cheap: nat, dear: nat)
    requires Specs(Tiers(intent, modelId), Registry(raw)) != []
    ensures var cs := Specs(Tiers(intent, modelId), Registry(raw));
            && cheap < |cs| && SelectModel(intent, Cheap, modelId, raw) == Some(cs[cheap])
            && (forall j :: 0 <= j < |cs| ==> cs[cheap].costTier <= cs[j].costTier)
            && (forall j :: 0 <= j < cheap ==> cs[cheap].costTier < cs[j].costTier)
            && dear < |cs| && SelectModel(intent, Quality, modelId, raw) == Some(cs[dear])
            && (forall j :: 0 <= j < |cs| ==> cs[j].costTier <= cs[dear].costTier)
            && (forall j :: 0 <= j < dear ==> cs[j].costTier < cs[dear].costTier)
  {
    var cs := Specs(Tiers(intent, modelId), Registry(raw));
    cheap := StableSort.HeadIsEarliestBest(cs, Cheapness);
    dear := StableSort.HeadIsEarliestBest(cs, Dearness);
    assert forall j :: 0 <= j < |cs| ==> Cheapness(cs[j]) <= Cheapness(cs[cheap]) && Dearness(cs[j]) <= Dearness(cs[dear]);
    assert forall j :: 0 <= j < cheap ==> Cheapness(cs[j]) < Cheapness(cs[cheap]);
    assert forall j :: 0 <= j < dear ==> Dearness(cs[j]) < Dearness(cs[dear]);
  }
}

module OptionGeneration {
  import opened Models
  import opened ModelRouter

  /** What one model answers: a parsed list, possibly empty, or an exception. */
  datatype ModelReply = Options(options: seq<PlanOption>) | Raised

  datatype Template = Template(action: string, params: map<string, string>, sideEffects: seq<string>)

  function TemplatesFor(intent: string): seq<Template> {
    if intent == "QUERY" then [
      Template("READ_FILE", map["operation" := "read", "scope" := "requested_entity_only"], []),
      Template("LIST", map["operation" := "list", "scope" := "requested_entity_only"], []),
      Template("ANALYZE", map["operation" := "analyze", "scope" := "requested_entity_only"], [])]
    else if intent == "DECISION" then [
      Template("PLAN", map["operation" := "draft_plan", "commit" := "False"], []),
      Template("ANALYZE", map["operation" := "analyze", "commit" := "False"], []),
      Template("ESCALATE", map["operation" := "escalate", "reason" := "inference_unavailable"], [])]
    else if intent == "EXECUTION" then [
      Template("BACKUP", map["operation" := "backup", "scope" := "affected_entities"], ["storage_write"]),
      Template("ANALYZE", map["operation" := "dry_run", "commit" := "False"], []),
      Template("ESCALATE", map["operation" := "escalate", "reason" := "inference_unavailable"], [])]
    else [
      Template("ESCALATE", map["operation" := "escalate", "reason" := "inference_unavailable"], []),
      Template("READ_FILE", map["operation" := "read", "scope" := "audit_log"], []),
      Template("ANALYZE", map["operation" := "analyze", "scope" := "recent_decisions"], [])]
  }

  const FORBIDDEN: set<string> := {"RUN_COMMAND", "RUN_SCRIPT", "DEPLOY", "ROLLBACK", "DELETE_FILE", "MUTATE"}

  /** Identifiers and payload hashes come from outside. */
  datatype Supply = Supply(newId: nat -> Uuid, hash: ActionSpec -> string)

  function RuleBased(intent: string, entity: string, s: Supply): seq<PlanOption> {
    var ts := TemplatesFor(intent);
    seq(|ts|, i requires 0 <= i < |ts| =>
      var spec := ActionSpec(ts[i].action, entity, ts[i].params);
      PlanOption(s.newId(i), ts[i].action, spec, ts[i].sideEffects, true, s.hash(spec)))
  }

  /** The rule-based list is complete, targets the entity, is reversible and free of forbidden actions,
      and compiles whenever the entity is named. */
  lemma RuleBasedIsSafe(intent: string, entity: string, s: Supply)
    ensures |RuleBased(intent, entity, s)| == 3
    ensures forall o :: o in RuleBased(intent, entity, s) ==>
              o.reversible && o.actionType !in FORBIDDEN && o.spec.kind == o.actionType && o.spec.target == entity
              && o.actionType != "" && o.payloadHash == s.hash(o.spec)
  {
  }

  predicate Performs(o: PlanOption, action: string, operation: string) {
    o.actionType == action && "operation" in o.spec.params && o.spec.params["operation"] == operation
  }

  lemma RuleBasedAt(intent: string, entity: string, s: Supply, i: nat)
    requires i < |TemplatesFor(intent)|
    ensures |RuleBased(intent, entity, s)| == |TemplatesFor(intent)|
    ensures var o, t := RuleBased(intent, entity, s)[i], TemplatesFor(intent)[i];
            o.actionType == t.action && o.spec.params == t.params && o.sideEffects == t.sideEffects
  {
  }

  /** Of the rule-based plans the backup alone has a side effect. */
  lemma RuleBasedEffects(intent: string, entity: string, s: Supply, i: nat)
    requires i < 3
    ensures |RuleBased(intent, entity, s)| == 3
    ensures RuleBased(intent, entity, s)[i].sideEffects == if intent == "EXECUTION" && i == 0 then ["storage_write"] else []
  {
    RuleBasedAt(intent, entity, s, i);
  }

  /** Plan `i` of the rules for an intent, by name: its action and what it is told to do. */
  lemma RuleBasedTable(intent: string, entity: string, s: Supply, i: nat)
    requires i < 3
    ensures |RuleBased(intent, entity, s)| == 3
    ensures var o := RuleBased(intent, entity, s)[i];
            match intent
            case "QUERY" => if i == 0 then Performs(o, "READ_FILE", "read") else if i == 1 then Performs(o, "LIST", "list")
                            else Performs(o, "ANALYZE", "analyze")
            case "DECISION" => if i == 0 then Performs(o, "PLAN", "draft_plan")
                               else if i == 1 then Performs(o, "ANALYZE", "analyze") else Performs(o, "ESCALATE", "escalate")
            case "EXECUTION" => if i == 0 then Performs(o, "BACKUP", "backup")
                                else if i == 1 then Performs(o, "ANALYZE", "dry_run") else Performs(o, "ESCALATE", "escalate")
            case _ => if i == 0 then Performs(o, "ESCALATE", "escalate") else if i == 1 then Performs(o, "READ_FILE", "read")
                      else Performs(o, "ANALYZE", "analyze")
  {
    RuleBasedAt(intent, entity, s, i);
  }

  /** Nothing the rules propose commits to anything, and what they read is the requested entity, the audit log
      or recent decisions. */
  lemma RuleBasedParams(intent: string, entity: string, s: Supply, i: nat)
    requires i < 3
    ensures |RuleBased(intent, entity, s)| == 3
    ensures var o := RuleBased(intent, entity, s)[i];
            && ("commit" in o.spec.params <==>
                  (intent == "DECISION" && o.actionType in {"PLAN", "ANALYZE"})
                  || (intent == "EXECUTION" && o.actionType == "ANALYZE"))
            && ("commit" in o.spec.params ==> o.spec.params["commit"] == "False")
            && (intent == "QUERY" ==> "scope" in o.spec.params && o.spec.params["scope"] == "requested_entity_only")
  {
    RuleBasedAt(intent, entity, s, i);
  }

  predicate Delivers(r: ModelReply) {
    r.Options? && r.options != []
  }

  /** Position of the first model of the chain that delivers; the length of the chain when none does. */
  function FirstDelivery(chain: seq<string>, ask: string -> ModelReply): (k: nat)
    ensures k <= |chain| && (k < |chain| ==> Delivers(ask(chain[k])))
    ensures forall j :: 0 <= j < k ==> !Delivers(ask(chain[j]))
  {
    if chain == [] || Delivers(ask(chain[0])) then 0 else 1 + FirstDelivery(chain[1..], ask)
  }

  /** The try-each loop: models in order until one delivers; `asked` are the models called. */
  method TryModels(chain: seq<string>, ask: string -> ModelReply) returns (hit: Option<seq<PlanOption>>, asked: seq<string>)
    ensures var k := FirstDelivery(chain, ask);
            if k < |chain| then hit == Some(ask(chain[k]).options) && asked == chain[..k + 1] else hit == None && asked == chain
  {
    asked := [];
    for i := 0 to |chain|
      invariant asked == chain[..i]
      invariant forall j :: 0 <= j < i ==> !Delivers(ask(chain[j]))
    {
      var r := ask(chain[i]);
      asked := asked + [chain[i]];
      if Delivers(r) {
        return Some(r.options), asked;
      }
    }
    return None, asked;
  }

  lemma DeliveryExists(chain: seq<string>, ask: string -> ModelReply)
    ensures FirstDelivery(chain, ask) < |chain| <==> exists m :: m in chain && Delivers(ask(m))
  {
    var k := FirstDelivery(chain, ask);
    if k < |chain| {
      assert chain[k] in chain;
    }
  }

  /** The adapter: the first delivery of the chain, or else the rules. */
  method GenerateWithFallback(intent: string, entity: string, modelId: string, raw: seq<Item>,
                              ask: string -> ModelReply, s: Supply)
    returns (options: seq<PlanOption>, path: GenerationPath)
    ensures var chain := FallbackChain(intent, modelId, raw);
            var k := FirstDelivery(chain, ask);
            if k < |chain| then options == ask(chain[k]).options && path == ByModel
            else options == RuleBased(intent, entity, s) && path == ByRules
    ensures options != []
    ensures path == ByModel <==> exists m :: m in FallbackChain(intent, modelId, raw) && Delivers(ask(m))
  {
    var hit, _ := TryModels(FallbackChain(intent, modelId, raw), ask);
    DeliveryExists(FallbackChain(intent, modelId, raw), ask);
    if hit.Some? {
      return hit.value, ByModel;
    }
    RuleBasedIsSafe(intent, entity, s);
    return RuleBased(intent, entity, s), ByRules;
  }

  /** The generator of a pass: one direct call first, then the adapter. */
  method GenerateOptions(intent: string, entity: string, modelId: string, raw: seq<Item>,
                         direct: ModelReply, ask: string -> ModelReply, s: Supply)
    returns (options: seq<PlanOption>, path: GenerationPath)
    ensures options != []
    ensures Delivers(direct) ==> options == direct.options
    ensures !Delivers(direct) && path == ByModel ==>
              exists m :: m in FallbackChain(intent, modelId, raw) && ask(m) == Options(options)
    ensures path == ByRules <==>
              !Delivers(direct) && forall m :: m in FallbackChain(intent, modelId, raw) ==> !Delivers(ask(m))
    ensures path == ByRules ==> options == RuleBased(intent, entity, s)
  {
    if direct.Options? && direct.options != [] {
      return direct.options, ByModel;
    }
    options, path := GenerateWithFallback(intent, entity, modelId, raw, ask, s);
    ghost var chain := FallbackChain(intent, modelId, raw);
    ghost var k := FirstDelivery(chain, ask);
    if k < |chain| {
      assert chain[k] in chain && Options(options) == ask(chain[k]);
    }
  }
}
