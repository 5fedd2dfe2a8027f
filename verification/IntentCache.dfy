// Intent interpretation: rules, then the cache, then the language model, then the fallback.
module IntentCache {
  import opened Models
  import opened Text

  datatype Urgency = Low | Normal | High | Critical

  datatype Intent = Intent(
    session: Uuid, cls: IntentClass, action: string, entityId: string, entityClass: string,
    urgency: Urgency, ambiguity: real, hash: string, raw: string)

  /** The part of an intent that is cached and read back. */
  datatype Entry = Entry(
    cls: IntentClass, action: string, entityId: string, entityClass: string, urgency: Urgency, ambiguity: real)

  function Project(x: Intent): Entry {
    Entry(x.cls, x.action, x.entityId, x.entityClass, x.urgency, x.ambiguity)
  }

  /** The text functions of the interpreter; the digest stands for the hash of the input. */
  datatype Language = Language(
    key: string -> string,
    rule: string -> Option<(IntentClass, string)>,
    entity: string -> (string, string),
    digest: string -> string)

  /** What the model would answer: a classification, questions, or a failure of any kind. */
  datatype LlmReply =
    | Classified(cls: IntentClass, action: string, entityId: string, entityClass: string, urgency: Urgency)
    | Asks
    | Breaks

  /** One call. A read that fails or has expired, and a write that fails, leave no trace. */
  datatype Call = Call(raw: string, session: Uuid, clean: bool, llm: LlmReply, readOk: bool, writeOk: bool)

  datatype Source = ByRule | ByCache | ByLlm | ByFallback

  datatype Result = Returned(intent: Intent, source: Source) | Clarification | Violation

  type Cache = map<string, Entry>

  function Persist(lang: Language, cache: Cache, c: Call, x: Intent): Cache {
    if c.writeOk then cache[lang.key(c.raw) := Project(x)] else cache
  }

  function RuleIntent(lang: Language, c: Call, cls: IntentClass, action: string): Intent {
    Intent(c.session, cls, action, lang.entity(c.raw).0, lang.entity(c.raw).1, Normal, 0.0, lang.digest(c.raw), c.raw)
  }

  function RecalledIntent(lang: Language, c: Call, e: Entry): Intent {
    Intent(c.session, e.cls, e.action, e.entityId, e.entityClass, e.urgency, e.ambiguity, lang.digest(c.raw), c.raw)
  }

  function ModelIntent(lang: Language, c: Call): Intent
    requires c.llm.Classified?
  {
    Intent(c.session, c.llm.cls, c.llm.action, c.llm.entityId, c.llm.entityClass, c.llm.urgency, 0.0, lang.digest(c.raw), c.raw)
  }

  function FallbackIntent(lang: Language, c: Call): Intent {
    Intent(c.session, Query, "ANALYZE", lang.entity(c.raw).0, lang.entity(c.raw).1, Normal, 0.5, lang.digest(c.raw), c.raw)
  }

  /** Result and new cache of one call. */
  function Interpreted(lang: Language, cache: Cache, c: Call): (Result, Cache) {
    if !c.clean then (Violation, cache)
    else
      var rule := lang.rule(c.raw);
      if rule.Some? then
        var x := RuleIntent(lang, c, rule.value.0, rule.value.1);
        (Returned(x, ByRule), Persist(lang, cache, c, x))
      else if c.readOk && lang.key(c.raw) in cache then
        (Returned(RecalledIntent(lang, c, cache[lang.key(c.raw)]), ByCache), cache)
      else
        match c.llm
        case Asks => (Clarification, cache)
        case Breaks => (Returned(FallbackIntent(lang, c), ByFallback), Persist(lang, cache, c, FallbackIntent(lang, c)))
        case Classified(_, _, _, _, _) => (Returned(ModelIntent(lang, c), ByLlm), Persist(lang, cache, c, ModelIntent(lang, c)))
  }

  class Interpreter {
    var cache: Cache
    const lang: Language

    constructor (lang: Language)
      ensures this.lang == lang && cache == map[]
    {
      this.lang := lang;
      cache := map[];
    }

    method Store(c: Call, x: Intent)
      modifies this
      ensures cache == Persist(lang, old(cache), c, x)
    {
      if c.writeOk {
        cache := cache[lang.key(c.raw) := Project(x)];
      }
    }

    method Recall(c: Call) returns (x: Option<Intent>)
      ensures x == if c.readOk && lang.key(c.raw) in cache
                   then Some(RecalledIntent(lang, c, cache[lang.key(c.raw)])) else None
    {
      if !c.readOk || lang.key(c.raw) !in cache {
        return None;
      }
      var e := cache[lang.key(c.raw)];
      var recalled := Intent(0, e.cls, e.action, e.entityId, e.entityClass, e.urgency, e.ambiguity, "", c.raw);
      recalled := recalled.(session := c.session);
      recalled := recalled.(hash := lang.digest(c.raw));
      recalled := recalled.(raw := c.raw);
      return Some(recalled);
    }

    method Interpret(c: Call) returns (r: Result)
      modifies this
      ensures (r, cache) == Interpreted(lang, old(cache), c)
    {
      if !c.clean {
        return Violation;
      }
      var rule := lang.rule(c.raw);
      if rule.Some? {
        var x := RuleIntent(lang, c, rule.value.0, rule.value.1);
        Store(c, x);
        return Returned(x, ByRule);
      }
      var recalled := Recall(c);
      if recalled.Some? {
        return Returned(recalled.value, ByCache);
      }
      if c.llm.Asks? {
        return Clarification;
      } else if c.llm.Classified? {
        var x := ModelIntent(lang, c);
        Store(c, x);
        return Returned(x, ByLlm);
      } else {
        var x := FallbackIntent(lang, c);
        Store(c, x);
        return Returned(x, ByFallback);
      }
    }
  }

  // ---------------------------------------------------------------- whole runs

  function Run(lang: Language, h: seq<Call>): Cache {
    if h == [] then map[] else Interpreted(lang, Run(lang, h[..|h| - 1]), h[|h| - 1]).1
  }

  function ResultAt(lang: Language, h: seq<Call>, i: nat): Result
    requires i < |h|
  {
    Interpreted(lang, Run(lang, h[..i]), h[i]).0
  }

  /** The model is asked exactly on a clean input that no rule matches and the cache does not answer. */
  predicate AsksLlm(lang: Language, h: seq<Call>, i: nat)
    requires i < |h|
  {
    var r := ResultAt(lang, h, i);
    r.Clarification? || (r.Returned? && (r.source == ByLlm || r.source == ByFallback))
  }

  /** Call `i` stored an intent under `k`. */
  predicate Stores(lang: Language, h: seq<Call>, i: nat, k: string)
    requires i < |h|
  {
    var r := ResultAt(lang, h, i);
    lang.key(h[i].raw) == k && h[i].writeOk && r.Returned? && r.source != ByCache
  }

  /** The latest storing call under `k` before position `n`. */
  predicate LatestStore(lang: Language, h: seq<Call>, n: nat, k: string, i: nat)
    requires n <= |h|
  {
    i < n && Stores(lang, h, i, k) && forall j :: i < j < n ==> !Stores(lang, h, j, k)
  }

  /** One call changes the entry under `k` exactly when it stores under it. */
  lemma StoreStep(lang: Language, h: seq<Call>, m: nat, k: string)
    requires m < |h|
    ensures var before, after := Run(lang, h[..m]), Run(lang, h[..m + 1]);
            if Stores(lang, h, m, k) then k in after && after[k] == Project(ResultAt(lang, h, m).intent)
            else (k in after <==> k in before) && (k in before ==> after[k] == before[k])
  {
    assert h[..m + 1][..m] == h[..m];
  }

  /** Closed form of the cache, for every pattern of failures: an entry is there exactly when some call
      stored under its key, and it is the projection of the intent the latest such call returned. */
  lemma {:induction false} CacheClosedForm(lang: Language, h: seq<Call>, n: nat, k: string)
    requires n <= |h|
    ensures k in Run(lang, h[..n]) <==> exists i :: LatestStore(lang, h, n, k, i)
    ensures forall i :: LatestStore(lang, h, n, k, i) ==>
              k in Run(lang, h[..n]) && Run(lang, h[..n])[k] == Project(ResultAt(lang, h, i).intent)
    decreases n
  {
    if n > 0 {
      var m := n - 1;
      CacheClosedForm(lang, h, m, k);
      StoreStep(lang, h, m, k);
      if Stores(lang, h, m, k) {
        assert LatestStore(lang, h, n, k, m);
      } else {
        forall i ensures LatestStore(lang, h, n, k, i) <==> LatestStore(lang, h, m, k, i) {
        }
      }
    }
  }

  /** Whatever its source, a returned intent belongs to the current call, and only clean input gets one. */
  lemma ReturnedIsCurrent(lang: Language, h: seq<Call>, i: nat)
    requires i < |h| && ResultAt(lang, h, i).Returned?
    ensures var x := ResultAt(lang, h, i).intent;
            h[i].clean && x.session == h[i].session && x.raw == h[i].raw && x.hash == lang.digest(h[i].raw)
  {
  }

  /** A recalled intent agrees, on everything that was classified, with the one the latest storing call
      under the same key returned, whatever reads and writes failed. */
  lemma RecallAgrees(lang: Language, h: seq<Call>, i: nat) returns (j: nat)
    requires i < |h| && ResultAt(lang, h, i).Returned? && ResultAt(lang, h, i).source == ByCache
    ensures LatestStore(lang, h, i, lang.key(h[i].raw), j)
    ensures var x, y := ResultAt(lang, h, i).intent, ResultAt(lang, h, j).intent;
            && x.cls == y.cls && x.action == y.action && x.entityId == y.entityId && x.entityClass == y.entityClass
            && x.urgency == y.urgency && x.ambiguity == y.ambiguity
    ensures Project(ResultAt(lang, h, i).intent) == Project(ResultAt(lang, h, j).intent)
  {
    var k := lang.key(h[i].raw);
    CacheClosedForm(lang, h, i, k);
    j :| LatestStore(lang, h, i, k, j);
  }

  /** An entry is there exactly when some earlier call stored under its key. */
  lemma {:induction false} CachedExactly(lang: Language, h: seq<Call>, n: nat, k: string)
    requires n <= |h|
    ensures k in Run(lang, h[..n]) <==> exists j :: 0 <= j < n && Stores(lang, h, j, k)
    decreases n
  {
    if n > 0 {
      CachedExactly(lang, h, n - 1, k);
      StoreStep(lang, h, n - 1, k);
    }
  }

  /** For every pattern of failing reads and writes: the model is asked exactly on a clean input without a rule
      whose read fails or under whose key no earlier call stored. */
  lemma ModelIsAskedExactly(lang: Language, h: seq<Call>, i: nat)
    requires i < |h|
    ensures AsksLlm(lang, h, i) <==> MustAsk(lang, h, i)
  {
    CachedExactly(lang, h, i, lang.key(h[i].raw));
  }

  /** No rule, and no answer from the cache. */
  predicate MustAsk(lang: Language, h: seq<Call>, i: nat)
    requires i < |h|
  {
    h[i].clean && lang.rule(h[i].raw).None?
    && (!h[i].readOk || forall j :: 0 <= j < i ==> !Stores(lang, h, j, lang.key(h[i].raw)))
  }

  /** What a new answer says: the class and action, the entity, and how certain it is. */
  predicate Says(x: Intent, cls: IntentClass, action: string, entity: (string, string), urgency: Urgency, ambiguity: real) {
    x.cls == cls && x.action == action && (x.entityId, x.entityClass) == entity && x.urgency == urgency
    && x.ambiguity == ambiguity
  }

  /** The result of every call, read off its input and the model's reply: a matching rule gives its class and
      action on the extracted entity; else the cache answers when it can; else the model's five fields are taken
      over, its questions are passed on, and its failure gives an uncertain analysis of the extracted entity. */
  lemma AnswersMean(lang: Language, h: seq<Call>, i: nat)
    requires i < |h|
    ensures var c, r, rule := h[i], ResultAt(lang, h, i), lang.rule(h[i].raw);
            && (r.Violation? <==> !c.clean)
            && (c.clean && rule.Some? ==>
                  r.Returned? && r.source == ByRule
                  && Says(r.intent, rule.value.0, rule.value.1, lang.entity(c.raw), Normal, 0.0))
            && (c.clean && rule.None? && !MustAsk(lang, h, i) ==> r.Returned? && r.source == ByCache)
            && (MustAsk(lang, h, i) ==>
                  match c.llm
                  case Asks => r.Clarification?
                  case Classified(cls, action, entityId, entityClass, urgency) =>
                    r.Returned? && r.source == ByLlm
                    && Says(r.intent, cls, action, (entityId, entityClass), urgency, 0.0)
                  case Breaks =>
                    r.Returned? && r.source == ByFallback
                    && Says(r.intent, Query, "ANALYZE", lang.entity(c.raw), Normal, 0.5))
  {
    CachedExactly(lang, h, i, lang.key(h[i].raw));
  }

  /** A cache that answers every read and takes every write. */
  predicate Reliable(h: seq<Call>) {
    forall c :: c in h ==> c.readOk && c.writeOk
  }

  /** Where an answer was first given: the call itself, or the one it was recalled from. */
  lemma Origin(lang: Language, h: seq<Call>, i: nat) returns (a: nat)
    requires Reliable(h) && i < |h| && ResultAt(lang, h, i).Returned?
    ensures a <= i && Stores(lang, h, a, lang.key(h[i].raw))
    ensures a == i <==> ResultAt(lang, h, i).source != ByCache
    ensures Project(ResultAt(lang, h, i).intent) == Project(ResultAt(lang, h, a).intent)
  {
    assert h[i] in h;
    if ResultAt(lang, h, i).source == ByCache {
      a := RecallAgrees(lang, h, i);
    } else {
      a := i;
    }
  }

  /** With a reliable cache that means: all earlier calls under the same key returned nothing, as they asked for
      clarification or were rejected. */
  lemma ModelIsAskedOncePerKey(lang: Language, h: seq<Call>, i: nat)
    requires Reliable(h) && i < |h|
    ensures AsksLlm(lang, h, i) <==>
            h[i].clean && lang.rule(h[i].raw).None?
            && forall j :: 0 <= j < i && lang.key(h[j].raw) == lang.key(h[i].raw) ==> !ResultAt(lang, h, j).Returned?
  {
    assert h[i] in h;
    ModelIsAskedExactly(lang, h, i);
    if j :| 0 <= j < i && lang.key(h[j].raw) == lang.key(h[i].raw) && ResultAt(lang, h, j).Returned? {
      var _ := Origin(lang, h, j);
    }
  }

  /** Inputs with the same key match a rule together or not at all. */
  predicate Coherent(lang: Language, h: seq<Call>) {
    forall a, b :: a in h && b in h && lang.key(a.raw) == lang.key(b.raw) ==> lang.rule(a.raw) == lang.rule(b.raw)
  }

  /** Then keys that rules match are never read from the cache... */
  lemma RuleKeysAreNeverRecalled(lang: Language, h: seq<Call>, i: nat, j: nat)
    requires Coherent(lang, h) && i < |h| && j < |h| && lang.key(h[i].raw) == lang.key(h[j].raw)
    requires lang.rule(h[i].raw).Some?
    ensures ResultAt(lang, h, j).Returned? ==> ResultAt(lang, h, j).source == ByRule
  {
    assert h[i] in h && h[j] in h;
  }

  /** ... and with a reliable cache any two answers under another key carry the same classification. */
  lemma ClassificationIsStable(lang: Language, h: seq<Call>, i: nat, j: nat)
    requires Coherent(lang, h) && Reliable(h) && i < j < |h|
    requires lang.key(h[i].raw) == lang.key(h[j].raw) && lang.rule(h[i].raw).None?
    requires ResultAt(lang, h, i).Returned? && ResultAt(lang, h, j).Returned?
    ensures Project(ResultAt(lang, h, i).intent) == Project(ResultAt(lang, h, j).intent)
    ensures ResultAt(lang, h, j).source == ByCache
  {
    var a := Origin(lang, h, i);
    var b := Origin(lang, h, j);
    assert h[i] in h && h[a] in h && h[b] in h;
    OneStorePerKey(lang, h, a, b, lang.key(h[i].raw));
  }

  lemma OneStorePerKey(lang: Language, h: seq<Call>, a: nat, b: nat, k: string)
    requires Reliable(h) && a < |h| && b < |h|
    requires Stores(lang, h, a, k) && Stores(lang, h, b, k)
    requires lang.rule(h[a].raw).None? && lang.rule(h[b].raw).None?
    ensures a == b
  {
    ModelIsAskedOncePerKey(lang, h, a);
    ModelIsAskedOncePerKey(lang, h, b);
  }

  // ---------------------------------------------------------------- the shipped text functions, on ASCII

  predicate Ascii(s: string) {
    forall c :: c in s ==> c as int < 128
  }

  predicate IsWord(c: char) {
    'a' <= c <= 'z' || 'A' <= c <= 'Z' || '0' <= c <= '9' || c == '_'
  }

  datatype Rule = Rule(words: seq<string>, cls: IntentClass, action: string)

  const RULES: seq<Rule> := [
    Rule(["list", "show all", "enumerate"], Query, "LIST"),
    Rule(["show", "read", "get", "fetch", "display"], Query, "READ_FILE"),
    Rule(["analyze", "inspect", "check", "scan"], Query, "ANALYZE"),
    Rule(["deploy", "launch", "start", "spin up"], Execution, "DEPLOY"),
    Rule(["rollback", "revert"], Execution, "ROLLBACK"),
    Rule(["backup", "backfill"], Execution, "BACKUP"),
    Rule(["delete", "remove", "drop"], Execution, "DELETE_FILE"),
    Rule(["write", "create", "add"], Execution, "WRITE_FILE"),
    Rule(["plan", "design", "propose"], Decision, "PLAN"),
    Rule(["recommend", "suggest", "advise"], Decision, "ANALYZE"),
    Rule(["escalate"], Escalation, "ESCALATE")]

  /** The text starts with the word, in any case, and a word boundary follows. */
  predicate LeadsWith(s: string, word: string) {
    |word| <= |s| && Lower(s[..|word|]) == word && (|s| == |word| || !IsWord(s[|word|]))
  }

  predicate LeadsWithAny(s: string, words: seq<string>) {
    words != [] && (LeadsWith(s, words[0]) || LeadsWithAny(s, words[1..]))
  }

  function FirstRule(s: string, rules: seq<Rule>): Option<(IntentClass, string)> {
    if rules == [] then None
    else if LeadsWithAny(s, rules[0].words) then Some((rules[0].cls, rules[0].action))
    else FirstRule(s, rules[1..])
  }

  function RuleClassify(raw: string): Option<(IntentClass, string)> {
    FirstRule(Trim(raw), RULES)
  }

  /** The first rule that matches decides. */
  lemma {:induction false} FirstRuleIsFirst(s: string, rules: seq<Rule>, k: nat)
    requires k <= |rules| && forall j :: 0 <= j < k ==> !LeadsWithAny(s, rules[j].words)
    requires k < |rules| ==> LeadsWithAny(s, rules[k].words)
    ensures FirstRule(s, rules) == if k < |rules| then Some((rules[k].cls, rules[k].action)) else None
    decreases k
  {
    if k > 0 {
      FirstRuleIsFirst(s, rules[1..], k - 1);
    }
  }

  lemma {:induction false} LeadsWithSome(s: string, words: seq<string>)
    ensures LeadsWithAny(s, words) <==> exists i :: 0 <= i < |words| && LeadsWith(s, words[i])
  {
    if words != [] {
      LeadsWithSome(s, words[1..]);
      if i :| 0 <= i < |words| && LeadsWith(s, words[i]) {
        assert i > 0 ==> words[1..][i - 1] == words[i];
      }
      if i :| 0 <= i < |words| - 1 && LeadsWith(s, words[1..][i]) {
        assert words[i + 1] == words[1..][i];
      }
    }
  }

  /** What each line of the table listens to, word by word. */
  predicate Hears(s: string, line: nat) {
    match line
    case 0 => LeadsWith(s, "list") || LeadsWith(s, "show all") || LeadsWith(s, "enumerate")
    case 1 => LeadsWith(s, "show") || LeadsWith(s, "read") || LeadsWith(s, "get") || LeadsWith(s, "fetch") || LeadsWith(s, "display")
    case 2 => LeadsWith(s, "analyze") || LeadsWith(s, "inspect") || LeadsWith(s, "check") || LeadsWith(s, "scan")
    case 3 => LeadsWith(s, "deploy") || LeadsWith(s, "launch") || LeadsWith(s, "start") || LeadsWith(s, "spin up")
    case 4 => LeadsWith(s, "rollback") || LeadsWith(s, "revert")
    case 5 => LeadsWith(s, "backup") || LeadsWith(s, "backfill")
    case 6 => LeadsWith(s, "delete") || LeadsWith(s, "remove") || LeadsWith(s, "drop")
    case 7 => LeadsWith(s, "write") || LeadsWith(s, "create") || LeadsWith(s, "add")
    case 8 => LeadsWith(s, "plan") || LeadsWith(s, "design") || LeadsWith(s, "propose")
    case 9 => LeadsWith(s, "recommend") || LeadsWith(s, "suggest") || LeadsWith(s, "advise")
    case 10 => LeadsWith(s, "escalate")
    case _ => false
  }

  lemma FewWords(s: string, ws: seq<string>)
    requires |ws| <= 5
    ensures LeadsWithAny(s, ws) <==>
            (|ws| > 0 && LeadsWith(s, ws[0])) || (|ws| > 1 && LeadsWith(s, ws[1])) || (|ws| > 2 && LeadsWith(s, ws[2]))
            || (|ws| > 3 && LeadsWith(s, ws[3])) || (|ws| > 4 && LeadsWith(s, ws[4]))
  {
    LeadsWithSome(s, ws);
  }

  lemma RuleHears(s: string, line: nat)
    requires line < |RULES|
    ensures LeadsWithAny(s, RULES[line].words) <==> Hears(s, line)
  {
    assert line in {0, 1, 2, 3, 4, 5, 6, 7, 8, 9, 10};
    FewWords(s, RULES[line].words);
  }

  /** The first line that hears the stripped input gives its class and action; unheard input matches no rule. */
  lemma RuleTable(raw: string, line: nat)
    requires line <= 11 && forall j: nat :: j < line ==> !Hears(Trim(raw), j)
    requires line < 11 ==> Hears(Trim(raw), line)
    ensures RuleClassify(raw) ==
            match line
            case 0 => Some((Query, "LIST"))
            case 1 => Some((Query, "READ_FILE"))
            case 2 => Some((Query, "ANALYZE"))
            case 3 => Some((Execution, "DEPLOY"))
            case 4 => Some((Execution, "ROLLBACK"))
            case 5 => Some((Execution, "BACKUP"))
            case 6 => Some((Execution, "DELETE_FILE"))
            case 7 => Some((Execution, "WRITE_FILE"))
            case 8 => Some((Decision, "PLAN"))
            case 9 => Some((Decision, "ANALYZE"))
            case 10 => Some((Escalation, "ESCALATE"))
            case _ => None
  {
    forall j: nat | j <= line && j < 11 ensures LeadsWithAny(Trim(raw), RULES[j].words) <==> Hears(Trim(raw), j) {
      RuleHears(Trim(raw), j);
    }
    FirstRuleIsFirst(Trim(raw), RULES, line);
  }

  lemma LeadLetters(s: string, word: string)
    requires LeadsWith(s, word) && |word| >= 3
    ensures |s| >= 3 && LowerChar(s[0]) == word[0] && LowerChar(s[1]) == word[1] && LowerChar(s[2]) == word[2]
  {
    assert Lower(s[..|word|])[0] == LowerChar(s[0]) && Lower(s[..|word|])[1] == LowerChar(s[1]);
    assert Lower(s[..|word|])[2] == LowerChar(s[2]);
  }

  /** The first letters of what a line listens to. */
  predicate Letters(a: char, b: char, c: char, line: nat) {
    match line
    case 0 => (a == 'l' && b == 'i' && c == 's') || (a == 's' && b == 'h' && c == 'o') || (a == 'e' && b == 'n' && c == 'u')
    case 1 => (a == 's' && b == 'h' && c == 'o') || (a == 'r' && b == 'e' && c == 'a') || (a == 'g' && b == 'e' && c == 't') || (a == 'f' && b == 'e' && c == 't') || (a == 'd' && b == 'i' && c == 's')
    case 2 => (a == 'a' && b == 'n' && c == 'a') || (a == 'i' && b == 'n' && c == 's') || (a == 'c' && b == 'h' && c == 'e') || (a == 's' && b == 'c' && c == 'a')
    case 3 => (a == 'd' && b == 'e' && c == 'p') || (a == 'l' && b == 'a' && c == 'u') || (a == 's' && b == 't' && c == 'a') || (a == 's' && b == 'p' && c == 'i')
    case 4 => (a == 'r' && b == 'o' && c == 'l') || (a == 'r' && b == 'e' && c == 'v')
    case 5 => (a == 'b' && b == 'a' && c == 'c')
    case 6 => (a == 'd' && b == 'e' && c == 'l') || (a == 'r' && b == 'e' && c == 'm') || (a == 'd' && b == 'r' && c == 'o')
    case 7 => (a == 'w' && b == 'r' && c == 'i') || (a == 'c' && b == 'r' && c == 'e') || (a == 'a' && b == 'd' && c == 'd')
    case 8 => (a == 'p' && b == 'l' && c == 'a') || (a == 'd' && b == 'e' && c == 's') || (a == 'p' && b == 'r' && c == 'o')
    case 9 => (a == 'r' && b == 'e' && c == 'c') || (a == 's' && b == 'u' && c == 'g') || (a == 'a' && b == 'd' && c == 'v')
    case 10 => (a == 'e' && b == 's' && c == 'c')
    case _ => false
  }

  lemma TableLetters(line: nat, i: nat)
    requires line < |RULES| && i < |RULES[line].words|
    ensures var word := RULES[line].words[i];
            |word| >= 3 && Letters(word[0], word[1], word[2], line)
  {
    assert line in {0, 1, 2, 3, 4, 5, 6, 7, 8, 9, 10} && i in {0, 1, 2, 3, 4};
  }

  lemma HearsLetters(s: string, line: nat)
    requires line < |RULES| && Hears(s, line)
    ensures |s| >= 3 && Letters(LowerChar(s[0]), LowerChar(s[1]), LowerChar(s[2]), line)
  {
    RuleHears(s, line);
    LeadsWithSome(s, RULES[line].words);
    var i :| 0 <= i < |RULES[line].words| && LeadsWith(s, RULES[line].words[i]);
    TableLetters(line, i);
    LeadLetters(s, RULES[line].words[i]);
  }

  /** At most one line hears an input, except that the first takes "show all" from the second. */
  lemma OneLineHears(s: string, a: nat, b: nat)
    requires a < b < |RULES| && Hears(s, a) && Hears(s, b)
    ensures a == 0 && b == 1 && LeadsWith(s, "show all")
  {
    HearsLetters(s, a);
    HearsLetters(s, b);
    if a == 0 && b == 1 {
      ShowAll(s);
    }
  }

  lemma ShowAll(s: string)
    requires Hears(s, 0) && |s| >= 3 && LowerChar(s[0]) == 's'
    ensures LeadsWith(s, "show all")
  {
    if LeadsWith(s, "list") {
      LeadLetters(s, "list");
    }
    if LeadsWith(s, "enumerate") {
      LeadLetters(s, "enumerate");
    }
  }

  /** So every word decides by itself, but for "show" in front of "all". */
  lemma WordDecides(raw: string, line: nat)
    requires line < |RULES| && Hears(Trim(raw), line) && !(line == 1 && LeadsWith(Trim(raw), "show all"))
    ensures RuleClassify(raw) == Some((RULES[line].cls, RULES[line].action))
  {
    forall j: nat | j <= line ensures LeadsWithAny(Trim(raw), RULES[j].words) <==> j == line {
      RuleHears(Trim(raw), j);
      if j < line && Hears(Trim(raw), j) {
        OneLineHears(Trim(raw), j, line);
      }
    }
    FirstRuleIsFirst(Trim(raw), RULES, line);
  }

  /** A word leads a text that begins with it in any spelling, unless a letter, a digit or an underscore follows. */
  lemma LeadsWithMeaning(spelling: string, rest: string, word: string)
    requires Lower(spelling) == word
    ensures LeadsWith(spelling + rest, word) <==>
            rest == "" || !('a' <= rest[0] <= 'z' || 'A' <= rest[0] <= 'Z' || '0' <= rest[0] <= '9' || rest[0] == '_')
  {
    assert (spelling + rest)[..|word|] == spelling;
    assert rest != "" ==> (spelling + rest)[|word|] == rest[0];
  }

  function CacheKey(raw: string): string {
    Trim(Lower(raw))
  }

  /** Two inputs share a key exactly when they agree up to letter case and outer white space. */
  lemma KeyIgnoresCaseAndMargins(a: string, b: string)
    ensures CacheKey(a) == CacheKey(b) <==> Lower(Trim(a)) == Lower(Trim(b))
  {
    TrimLower(a);
    TrimLower(b);
  }

  lemma LeadsWithLower(s: string, word: string)
    ensures LeadsWith(Lower(s), word) <==> LeadsWith(s, word)
  {
    if |word| <= |s| {
      assert Lower(Lower(s)[..|word|]) == Lower(s[..|word|]);
    }
  }

  lemma {:induction false} LeadsWithAnyLower(s: string, words: seq<string>)
    ensures LeadsWithAny(Lower(s), words) <==> LeadsWithAny(s, words)
  {
    if words != [] {
      LeadsWithLower(s, words[0]);
      LeadsWithAnyLower(s, words[1..]);
    }
  }

  lemma {:induction false} FirstRuleLower(s: string, rules: seq<Rule>)
    ensures FirstRule(Lower(s), rules) == FirstRule(s, rules)
  {
    if rules != [] {
      LeadsWithAnyLower(s, rules[0].words);
      FirstRuleLower(s, rules[1..]);
    }
  }

  /** On ASCII input the rule depends on the cache key alone. */
  lemma RuleDependsOnKey(a: string, b: string)
    requires Ascii(a) && Ascii(b) && CacheKey(a) == CacheKey(b)
    ensures RuleClassify(a) == RuleClassify(b)
  {
    TrimLower(a);
    TrimLower(b);
    FirstRuleLower(Trim(a), RULES);
    FirstRuleLower(Trim(b), RULES);
  }

  /** So every run over ASCII inputs is coherent, whatever the entity extraction and the hash. */
  lemma AsciiRunsAreCoherent(lang: Language, h: seq<Call>)
    requires lang.key == CacheKey && lang.rule == RuleClassify && forall c :: c in h ==> Ascii(c.raw)
    ensures Coherent(lang, h)
  {
    forall a, b | a in h && b in h && lang.key(a.raw) == lang.key(b.raw)
      ensures lang.rule(a.raw) == lang.rule(b.raw)
    {
      RuleDependsOnKey(a.raw, b.raw);
    }
  }
}
