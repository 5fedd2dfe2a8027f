// Grading of outputs and the averages of an evaluation run. Scores are exact fractions.
module EvalHarness {
  import opened Models
  import opened OrderedDict
  import Text

  datatype Case = Case(
    mustContain: seq<string>, mustNotContain: seq<string>, requiredTools: seq<string>, maxChars: Option<int>, rubric: bool)

  /** The names of the checks. */
  datatype Check = Has(needle: string) | Lacks(needle: string) | Uses(tool: string) | Size | Noop | Judge

  /** The dictionary key of a check. */
  function KeyText(c: Check): string {
    match c
    case Has(s) => "must_contain:" + s
    case Lacks(s) => "must_not_contain:" + s
    case Uses(s) => "required_tool:" + s
    case Size => "max_chars"
    case Noop => "noop"
    case Judge => "llm_judge"
  }

  lemma SameTail(prefix: string, s: string, t: string)
    requires prefix + s == prefix + t
    ensures s == t
  {
    assert s == (prefix + s)[|prefix|..] && t == (prefix + t)[|prefix|..];
  }

  /** Different checks never share a key. */
  lemma KeysAreInjective(a: Check, b: Check)
    requires KeyText(a) == KeyText(b)
    ensures a == b
  {
    var k := KeyText(a);
    assert a.Has? ==> k[0] == 'm' && k[1] == 'u' && k[5] == 'c';
    assert a.Lacks? ==> k[0] == 'm' && k[1] == 'u' && k[5] == 'n';
    assert b.Has? ==> k[0] == 'm' && k[1] == 'u' && k[5] == 'c';
    assert b.Lacks? ==> k[0] == 'm' && k[1] == 'u' && k[5] == 'n';
    assert a.Uses? ==> k[0] == 'r';
    assert b.Uses? ==> k[0] == 'r';
    match a
    case Has(s) => SameTail("must_contain:", s, b.needle);
    case Lacks(s) => SameTail("must_not_contain:", s, b.needle);
    case Uses(s) => SameTail("required_tool:", s, b.tool);
    case Size =>
    case Noop =>
    case Judge =>
  }

  datatype Grade = Grade(passed: bool, score: real, checks: Dict<Check, bool>, failures: seq<Check>)

  /** Whether a deterministic check succeeds. */
  predicate Succeeds(c: Check, text: string, tools: seq<string>, maxChars: int) {
    match c
    case Has(s) => Text.Contains(Text.Lower(text), Text.Lower(s))
    case Lacks(s) => !Text.Contains(Text.Lower(text), Text.Lower(s))
    case Uses(s) => s in tools
    case Size => |text| <= maxChars
    case _ => true
  }

  function Limit(c: Case): int {
    if c.maxChars.Some? then c.maxChars.value else 0
  }

  /** The checks of a case in the order they are made. */
  function ChecksOf(c: Case): seq<Check> {
    seq(|c.mustContain|, i requires 0 <= i < |c.mustContain| => Has(c.mustContain[i]))
    + seq(|c.mustNotContain|, i requires 0 <= i < |c.mustNotContain| => Lacks(c.mustNotContain[i]))
    + seq(|c.requiredTools|, i requires 0 <= i < |c.requiredTools| => Uses(c.requiredTools[i]))
    + (if c.maxChars.Some? then [Size] else [])
  }

  function Record(d: Dict<Check, bool>, cs: seq<Check>, text: string, tools: seq<string>, limit: int): Dict<Check, bool> {
    if cs == [] then d
    else
      var n := |cs| - 1;
      Put(Record(d, cs[..n], text, tools, limit), cs[n], Succeeds(cs[n], text, tools, limit))
  }

  function Failures(cs: seq<Check>, text: string, tools: seq<string>, limit: int): seq<Check> {
    if cs == [] then []
    else
      var n := |cs| - 1;
      Failures(cs[..n], text, tools, limit) + if Succeeds(cs[n], text, tools, limit) then [] else [cs[n]]
  }

  function Trues(d: Dict<Check, bool>): nat {
    if d == [] then 0 else (if d[0].1 then 1 else 0) + Trues(d[1..])
  }

  function Fraction(d: Dict<Check, bool>): real
    requires d != []
  {
    Trues(d) as real / |d| as real
  }

  function Graded(c: Case, text: string, tools: seq<string>): Grade {
    var cs := ChecksOf(c);
    var recorded := Record([], cs, text, tools, Limit(c));
    var checks := if recorded == [] then [(Noop, true)] else recorded;
    var failures := Failures(cs, text, tools, Limit(c));
    Grade(failures == [], Fraction(checks), checks, failures)
  }

  lemma NextCheck(done: seq<Check>, cs: seq<Check>, i: nat)
    requires i < |cs|
    ensures var all := done + cs[..i + 1];
            all[..|all| - 1] == done + cs[..i] && all[|all| - 1] == cs[i]
  {
  }

  /** One loop over checks of a kind: every outcome is recorded, every failure noted. */
  method RunChecks(done: seq<Check>, cs: seq<Check>, text: string, tools: seq<string>, limit: int,
                   before: Dict<Check, bool>, noted: seq<Check>)
    returns (checks: Dict<Check, bool>, failures: seq<Check>)
    requires before == Record([], done, text, tools, limit) && noted == Failures(done, text, tools, limit)
    ensures checks == Record([], done + cs, text, tools, limit)
    ensures failures == Failures(done + cs, text, tools, limit)
  {
    checks, failures := before, noted;
    assert done + cs[..0] == done;
    for i := 0 to |cs|
      invariant checks == Record([], done + cs[..i], text, tools, limit)
      invariant failures == Failures(done + cs[..i], text, tools, limit)
    {
      NextCheck(done, cs, i);
      var ok := Succeeds(cs[i], text, tools, limit);
      checks := Put(checks, cs[i], ok);
      if !ok {
        failures := failures + [cs[i]];
      }
    }
    assert cs[..|cs|] == cs;
  }

  method GradeOutput(c: Case, text: string, tools: seq<string>) returns (g: Grade)
    ensures g == Graded(c, text, tools)
  {
    var limit := Limit(c);
    var has := seq(|c.mustContain|, i requires 0 <= i < |c.mustContain| => Has(c.mustContain[i]));
    var lacks := seq(|c.mustNotContain|, i requires 0 <= i < |c.mustNotContain| => Lacks(c.mustNotContain[i]));
    var uses := seq(|c.requiredTools|, i requires 0 <= i < |c.requiredTools| => Uses(c.requiredTools[i]));
    var size := if c.maxChars.Some? then [Size] else [];
    assert [] + has == has;
    var checks, failures := RunChecks([], has, text, tools, limit, [], []);
    checks, failures := RunChecks(has, lacks, text, tools, limit, checks, failures);
    checks, failures := RunChecks(has + lacks, uses, text, tools, limit, checks, failures);
    checks, failures := RunChecks(has + lacks + uses, size, text, tools, limit, checks, failures);
    assert ChecksOf(c) == has + lacks + uses + size;
    if checks == [] {
      checks := [(Noop, true)];
    }
    g := Grade(failures == [], Fraction(checks), checks, failures);
  }

  /** The judge's verdict enters the checks, the failures and the score. */
  function Judged(g: Grade, ok: bool): Grade
    requires g.checks != []
  {
    var checks := Put(g.checks, Judge, ok);
    PutNotEmpty(g.checks, Judge, ok);
    Grade(g.passed && ok, Fraction(checks), checks, if ok then g.failures else g.failures + [Judge])
  }

  lemma PutNotEmpty(d: Dict<Check, bool>, k: Check, v: bool)
    ensures Put(d, k, v) != []
  {
  }

  // ---------------------------------------------------------------- one grade

  /** A grade whose parts agree: it passes, it has no failures, all its checks succeeded, its score is one. */
  ghost predicate Coherent(g: Grade) {
    && g.checks != [] && 0.0 <= g.score <= 1.0
    && (g.passed <==> g.failures == [])
    && (g.passed <==> g.score == 1.0)
    && (g.passed <==> forall p :: p in g.checks ==> p.1)
  }

  lemma {:induction false} TruesBound(d: Dict<Check, bool>)
    ensures Trues(d) <= |d|
    ensures Trues(d) == |d| <==> forall p :: p in d ==> p.1
  {
    if d != [] {
      TruesBound(d[1..]);
      assert d == [d[0]] + d[1..];
    }
  }

  lemma FractionBound(d: Dict<Check, bool>)
    requires d != []
    ensures 0.0 <= Fraction(d) <= 1.0
    ensures Fraction(d) == 1.0 <==> forall p :: p in d ==> p.1
  {
    TruesBound(d);
    Quotient(Trues(d) as real, |d| as real);
  }

  lemma Quotient(x: real, y: real)
    requires 0.0 <= x <= y && y > 0.0
    ensures 0.0 <= x / y <= 1.0
    ensures x / y == 1.0 <==> x == y
  {
    Smaller(x, y, y);
    assert y / y == 1.0;
    assert (x / y) * y == x;
  }

  lemma {:induction false} PutMembers(d: Dict<Check, bool>, k: Check, v: bool)
    requires forall p :: p in d && p.0 == k ==> p.1 == v
    ensures forall p :: p in Put(d, k, v) <==> p in d || p == (k, v)
  {
    if d != [] && d[0].0 != k {
      PutMembers(d[1..], k, v);
      assert d == [d[0]] + d[1..];
    } else if d != [] {
      assert d == [d[0]] + d[1..] && d[0] in d;
    }
  }

  /** The recorded checks are exactly those made, each with its own outcome. */
  lemma {:induction false} RecordMembers(cs: seq<Check>, text: string, tools: seq<string>, limit: int)
    ensures forall p :: p in Record([], cs, text, tools, limit) <==> p.0 in cs && p.1 == Succeeds(p.0, text, tools, limit)
    ensures Failures(cs, text, tools, limit) == [] <==> forall c :: c in cs ==> Succeeds(c, text, tools, limit)
    decreases |cs|
  {
    if cs != [] {
      var n := |cs| - 1;
      var d := Record([], cs[..n], text, tools, limit);
      RecordMembers(cs[..n], text, tools, limit);
      assert cs == cs[..n] + [cs[n]];
      PutMembers(d, cs[n], Succeeds(cs[n], text, tools, limit));
    }
  }

  /** Every deterministic grade is coherent, repeated checks included. */
  lemma GradesAreCoherent(c: Case, text: string, tools: seq<string>)
    ensures Coherent(Graded(c, text, tools))
    ensures forall p :: p in Graded(c, text, tools).checks ==> p.0 != Judge
    ensures Graded(c, text, tools).passed <==> forall k :: k in ChecksOf(c) ==> Succeeds(k, text, tools, Limit(c))
  {
    var cs, limit, g := ChecksOf(c), Limit(c), Graded(c, text, tools);
    var recorded := Record([], cs, text, tools, limit);
    RecordMembers(cs, text, tools, limit);
    RecordEmpty(cs, text, tools, limit);
    AllSucceed(cs, recorded, text, tools, limit);
    NeverTheJudge(c);
    FractionBound(g.checks);
    assert recorded == [] ==> g.checks == [(Noop, true)] && cs == [];
    assert (forall p :: p in g.checks ==> p.1) <==> (forall p :: p in recorded ==> p.1);
    assert g.passed <==> forall k :: k in cs ==> Succeeds(k, text, tools, limit);
  }

  lemma NeverTheJudge(c: Case)
    ensures Judge !in ChecksOf(c)
  {
  }

  /** A case that requires and forbids one substring, or requires a tool that was not used, never passes. */
  lemma ImpossibleCasesFail(c: Case, text: string, tools: seq<string>, s: string)
    requires (s in c.mustContain && s in c.mustNotContain) || (s in c.requiredTools && s !in tools)
             || (c.maxChars.Some? && |text| > c.maxChars.value)
    ensures !Graded(c, text, tools).passed
  {
    GradesAreCoherent(c, text, tools);
    ChecksMade(c, s);
  }

  /** A case passes exactly when the lower-cased text holds every required substring and no forbidden one, every
      required tool was used, and the text is no longer than the limit, should there be one. */
  lemma PassesExactly(c: Case, text: string, tools: seq<string>)
    ensures Graded(c, text, tools).passed <==>
            && (forall s :: s in c.mustContain ==> Text.Contains(Text.Lower(text), Text.Lower(s)))
            && (forall s :: s in c.mustNotContain ==> !Text.Contains(Text.Lower(text), Text.Lower(s)))
            && (forall t :: t in c.requiredTools ==> t in tools)
            && (c.maxChars.Some? ==> |text| <= c.maxChars.value)
  {
    GradesAreCoherent(c, text, tools);
    forall s ensures ChecksFor(c, s) {
      ChecksMade(c, s);
    }
    forall k | k in ChecksOf(c) ensures Belongs(c, k) {
      OnlyTheseChecks(c, k);
    }
    assert forall k :: k in ChecksOf(c) ==> Belongs(c, k);
    assert forall s :: s in c.mustContain ==> ChecksFor(c, s);
    assert forall s :: s in c.mustNotContain ==> ChecksFor(c, s);
    assert forall t :: t in c.requiredTools ==> ChecksFor(c, t);
    assert ChecksFor(c, "");
  }

  predicate ChecksFor(c: Case, s: string) {
    && (s in c.mustContain ==> Has(s) in ChecksOf(c))
    && (s in c.mustNotContain ==> Lacks(s) in ChecksOf(c))
    && (s in c.requiredTools ==> Uses(s) in ChecksOf(c))
    && (c.maxChars.Some? ==> Size in ChecksOf(c))
  }

  predicate Belongs(c: Case, k: Check) {
    match k
    case Has(s) => s in c.mustContain
    case Lacks(s) => s in c.mustNotContain
    case Uses(t) => t in c.requiredTools
    case Size => c.maxChars.Some?
    case _ => false
  }

  lemma OnlyTheseChecks(c: Case, k: Check)
    requires k in ChecksOf(c)
    ensures Belongs(c, k)
  {
  }

  /** The failures are the checks that fail. */
  lemma {:induction false} FailuresExactly(cs: seq<Check>, text: string, tools: seq<string>, limit: int)
    ensures forall k :: k in Failures(cs, text, tools, limit) <==> k in cs && !Succeeds(k, text, tools, limit)
    decreases |cs|
  {
    if cs != [] {
      var n := |cs| - 1;
      FailuresExactly(cs[..n], text, tools, limit);
      assert cs == cs[..n] + [cs[n]];
    }
  }

  /** The names in a dictionary, and those that hold. */
  function Noted(d: Dict<Check, bool>): set<Check> {
    set p | p in d :: p.0
  }

  function Holding(d: Dict<Check, bool>): set<Check> {
    set p | p in d && p.1 :: p.0
  }

  lemma NotedFirst(p: (Check, bool), rest: Dict<Check, bool>)
    ensures Noted([p] + rest) == Noted(rest) + {p.0}
    ensures Holding([p] + rest) == if p.1 then Holding(rest) + {p.0} else Holding(rest)
    ensures Holding(rest) <= Noted(rest)
  {
    assert forall q :: q in [p] + rest <==> q == p || q in rest;
  }

  lemma {:induction false} Sizes(d: Dict<Check, bool>)
    requires DistinctKeys(d)
    ensures |Noted(d)| == |d| && |Holding(d)| == Trues(d)
  {
    if d != [] {
      assert d == [d[0]] + d[1..];
      NotedFirst(d[0], d[1..]);
      NewName(d);
      Sizes(d[1..]);
    }
  }

  lemma NewName(d: Dict<Check, bool>)
    requires d != [] && DistinctKeys(d)
    ensures d[0].0 !in Noted(d[1..]) && DistinctKeys(d[1..])
  {
  }

  lemma {:induction false} RecordDistinct(cs: seq<Check>, text: string, tools: seq<string>, limit: int)
    ensures DistinctKeys(Record([], cs, text, tools, limit))
    decreases |cs|
  {
    if cs != [] {
      var n := |cs| - 1;
      RecordDistinct(cs[..n], text, tools, limit);
      PutShape(Record([], cs[..n], text, tools, limit), cs[n], Succeeds(cs[n], text, tools, limit));
    }
  }

  /** The checks of a case, each once, and those that succeed. */
  function Made(cs: seq<Check>): set<Check> {
    set k | k in cs
  }

  function Good(cs: seq<Check>, text: string, tools: seq<string>, limit: int): set<Check> {
    set k | k in cs && Succeeds(k, text, tools, limit)
  }

  /** The score is the share of the checks that succeed, each check counted once; a case without checks scores one. */
  lemma ScoreIsShare(c: Case, text: string, tools: seq<string>)
    ensures var made, good := Made(ChecksOf(c)), Good(ChecksOf(c), text, tools, Limit(c));
            if made == {} then Graded(c, text, tools).score == 1.0
            else Graded(c, text, tools).score == |good| as real / |made| as real
  {
    var cs := ChecksOf(c);
    GradedScore(c, text, tools);
    MadeEmpty(cs);
    if cs != [] {
      RecordedShare(cs, text, tools, Limit(c));
    }
  }

  lemma MadeEmpty(cs: seq<Check>)
    ensures Made(cs) == {} <==> cs == []
  {
    assert cs != [] ==> cs[0] in Made(cs);
  }

  lemma GradedScore(c: Case, text: string, tools: seq<string>)
    ensures var recorded := Record([], ChecksOf(c), text, tools, Limit(c));
            if ChecksOf(c) == [] then Graded(c, text, tools).score == 1.0
            else recorded != [] && Graded(c, text, tools).score == Fraction(recorded)
  {
    RecordEmpty(ChecksOf(c), text, tools, Limit(c));
    assert Trues([(Noop, true)]) == 1;
  }

  lemma ShareOf(d: Dict<Check, bool>, made: set<Check>, good: set<Check>)
    requires d != [] && DistinctKeys(d) && Noted(d) == made && Holding(d) == good
    ensures made != {} && Fraction(d) == |good| as real / |made| as real
  {
    Sizes(d);
  }

  lemma RecordedShare(cs: seq<Check>, text: string, tools: seq<string>, limit: int)
    requires Record([], cs, text, tools, limit) != []
    ensures var recorded := Record([], cs, text, tools, limit);
            Made(cs) != {} && Fraction(recorded) == |Good(cs, text, tools, limit)| as real / |Made(cs)| as real
  {
    var recorded := Record([], cs, text, tools, limit);
    RecordDistinct(cs, text, tools, limit);
    NotedChecks(cs, text, tools, limit);
    ShareOf(recorded, Made(cs), Good(cs, text, tools, limit));
  }

  lemma NotedChecks(cs: seq<Check>, text: string, tools: seq<string>, limit: int)
    ensures Noted(Record([], cs, text, tools, limit)) == Made(cs)
    ensures Holding(Record([], cs, text, tools, limit)) == Good(cs, text, tools, limit)
  {
    var recorded := Record([], cs, text, tools, limit);
    RecordMembers(cs, text, tools, limit);
    forall k | k in cs ensures (k, Succeeds(k, text, tools, limit)) in recorded {
    }
  }

  lemma ChecksMade(c: Case, s: string)
    ensures s in c.mustContain ==> Has(s) in ChecksOf(c)
    ensures s in c.mustNotContain ==> Lacks(s) in ChecksOf(c)
    ensures s in c.requiredTools ==> Uses(s) in ChecksOf(c)
    ensures c.maxChars.Some? ==> Size in ChecksOf(c)
  {
    var cs := ChecksOf(c);
    var a, b := |c.mustContain|, |c.mustNotContain|;
    if i :| 0 <= i < a && c.mustContain[i] == s {
      assert cs[i] == Has(s);
    }
    if i :| 0 <= i < b && c.mustNotContain[i] == s {
      assert cs[a + i] == Lacks(s);
    }
    if i :| 0 <= i < |c.requiredTools| && c.requiredTools[i] == s {
      assert cs[a + b + i] == Uses(s);
    }
    assert c.maxChars.Some? ==> cs[a + b + |c.requiredTools|] == Size;
  }

  lemma RecordEmpty(cs: seq<Check>, text: string, tools: seq<string>, limit: int)
    ensures Record([], cs, text, tools, limit) == [] <==> cs == []
  {
    if cs != [] {
      var n := |cs| - 1;
      PutNotEmpty(Record([], cs[..n], text, tools, limit), cs[n], Succeeds(cs[n], text, tools, limit));
    }
  }

  lemma AllSucceed(cs: seq<Check>, recorded: Dict<Check, bool>, text: string, tools: seq<string>, limit: int)
    requires forall p :: p in recorded <==> p.0 in cs && p.1 == Succeeds(p.0, text, tools, limit)
    ensures (forall p :: p in recorded ==> p.1) <==> forall k :: k in cs ==> Succeeds(k, text, tools, limit)
  {
    if forall p :: p in recorded ==> p.1 {
      forall k | k in cs ensures Succeeds(k, text, tools, limit) {
        assert (k, Succeeds(k, text, tools, limit)) in recorded;
      }
    }
  }

  /** Judging keeps a grade coherent, and passes it exactly when it passed before and the judge agrees. */
  lemma JudgingStaysCoherent(g: Grade, ok: bool)
    requires Coherent(g) && forall p :: p in g.checks ==> p.0 != Judge
    ensures Coherent(Judged(g, ok)) && (Judged(g, ok).passed <==> g.passed && ok)
  {
    PutMembers(g.checks, Judge, ok);
    var checks := Put(g.checks, Judge, ok);
    assert (Judge, ok) in checks;
    FractionBound(checks);
  }

  // ---------------------------------------------------------------- a run

  /** What a case produces: output, tools used, and the judge's verdict should it be asked. */
  datatype Sample = Sample(text: string, tools: seq<string>, judge: bool)

  function ResultOf(c: Case, s: Sample, useJudge: bool): Grade {
    var g := Graded(c, s.text, s.tools);
    if useJudge && c.rubric then Judged(g, s.judge) else g
  }

  function Results(cases: seq<Case>, samples: seq<Sample>, useJudge: bool): seq<Grade>
    requires |samples| == |cases|
  {
    seq(|cases|, i requires 0 <= i < |cases| => ResultOf(cases[i], samples[i], useJudge))
  }

  function SumScores(rs: seq<Grade>): real {
    if rs == [] then 0.0 else SumScores(rs[..|rs| - 1]) + rs[|rs| - 1].score
  }

  function CountPassed(rs: seq<Grade>): nat {
    if rs == [] then 0 else CountPassed(rs[..|rs| - 1]) + (if rs[|rs| - 1].passed then 1 else 0)
  }

  function MeanScore(rs: seq<Grade>): real {
    if rs == [] then 0.0 else SumScores(rs) / |rs| as real
  }

  function PassRate(rs: seq<Grade>): real {
    if rs == [] then 0.0 else CountPassed(rs) as real / |rs| as real
  }

  lemma ResultsStep(cases: seq<Case>, samples: seq<Sample>, useJudge: bool, i: nat)
    requires |samples| == |cases| && i < |cases|
    ensures Results(cases, samples, useJudge)[..i + 1] ==
            Results(cases, samples, useJudge)[..i] + [ResultOf(cases[i], samples[i], useJudge)]
  {
    TakeStep(Results(cases, samples, useJudge), i);
  }

  lemma TakeStep(rs: seq<Grade>, i: nat)
    requires i < |rs|
    ensures rs[..i + 1] == rs[..i] + [rs[i]]
  {
  }

  /** Grading of all cases, with running totals. */
  method RunCases(cases: seq<Case>, samples: seq<Sample>, useJudge: bool)
    returns (rs: seq<Grade>, total: real, passed: nat)
    requires |samples| == |cases|
    ensures rs == Results(cases, samples, useJudge)
    ensures total == SumScores(rs) && passed == CountPassed(rs)
  {
    rs, total, passed := [], 0.0, 0;
    ghost var all := Results(cases, samples, useJudge);
    for i := 0 to |cases|
      invariant rs == all[..i]
      invariant total == SumScores(rs) && passed == CountPassed(rs)
    {
      var g := GradeCase(cases[i], samples[i], useJudge);
      ResultsStep(cases, samples, useJudge, i);
      Totals(rs, g);
      rs := rs + [g];
      total := total + g.score;
      passed := passed + if g.passed then 1 else 0;
    }
    assert rs == all;
  }

  /** One case: the deterministic grade, then the judge when it is enabled and the case has a rubric. */
  method GradeCase(c: Case, s: Sample, useJudge: bool) returns (g: Grade)
    ensures g == ResultOf(c, s, useJudge)
  {
    g := GradeOutput(c, s.text, s.tools);
    if useJudge && c.rubric {
      g := Judged(g, s.judge);
    }
  }

  /** A case passes exactly when all its checks succeed and the judge, where asked, agrees. */
  lemma ResultIsCoherent(c: Case, s: Sample, useJudge: bool)
    ensures Coherent(ResultOf(c, s, useJudge))
    ensures ResultOf(c, s, useJudge).passed <==>
            (useJudge && c.rubric ==> s.judge) && forall k :: k in ChecksOf(c) ==> Succeeds(k, s.text, s.tools, Limit(c))
  {
    GradesAreCoherent(c, s.text, s.tools);
    JudgingStaysCoherent(Graded(c, s.text, s.tools), s.judge);
  }

  lemma Totals(rs: seq<Grade>, g: Grade)
    ensures SumScores(rs + [g]) == SumScores(rs) + g.score
    ensures CountPassed(rs + [g]) == CountPassed(rs) + if g.passed then 1 else 0
  {
    assert (rs + [g])[..|rs|] == rs;
  }

  method Run(cases: seq<Case>, samples: seq<Sample>, useJudge: bool) returns (rs: seq<Grade>, mean: real, rate: real)
    requires |samples| == |cases|
    ensures rs == Results(cases, samples, useJudge)
    ensures mean == MeanScore(rs) && rate == PassRate(rs)
    ensures forall g :: g in rs ==> Coherent(g)
    ensures rs != [] ==> mean == SumScores(rs) / |rs| as real && rate == CountPassed(rs) as real / |rs| as real
    ensures 0.0 <= rate <= mean <= 1.0
    ensures cases != [] ==> (rate == 1.0 <==> mean == 1.0)
  {
    var total, passed;
    rs, total, passed := RunCases(cases, samples, useJudge);
    mean := if rs == [] then 0.0 else total / |rs| as real;
    rate := if rs == [] then 0.0 else passed as real / |rs| as real;
    ResultsAreCoherent(cases, samples, useJudge);
    ScoreAlgebra(rs);
  }

  lemma ResultsAreCoherent(cases: seq<Case>, samples: seq<Sample>, useJudge: bool)
    requires |samples| == |cases|
    ensures forall g :: g in Results(cases, samples, useJudge) ==> Coherent(g)
  {
    forall i | 0 <= i < |cases| ensures Coherent(ResultOf(cases[i], samples[i], useJudge)) {
      ResultIsCoherent(cases[i], samples[i], useJudge);
    }
  }

  lemma {:induction false} SumsCompare(rs: seq<Grade>)
    requires forall g :: g in rs ==> Coherent(g)
    ensures CountPassed(rs) as real <= SumScores(rs) <= |rs| as real
    ensures SumScores(rs) == |rs| as real <==> CountPassed(rs) == |rs|
    ensures CountPassed(rs) <= |rs|
    decreases |rs|
  {
    if rs != [] {
      var n := |rs| - 1;
      assert rs[n] in rs;
      SumsCompare(rs[..n]);
    }
  }

  /** The total of one grade is its score. */
  lemma OneTotal(g: Grade)
    ensures SumScores([g]) == g.score && CountPassed([g]) == if g.passed then 1 else 0
  {
    Totals([], g);
    assert [] + [g] == [g];
  }

  /** Totals are taken over all grades. */
  lemma {:induction false} TotalsSplit(rs: seq<Grade>, more: seq<Grade>)
    ensures SumScores(rs + more) == SumScores(rs) + SumScores(more)
    ensures CountPassed(rs + more) == CountPassed(rs) + CountPassed(more)
    decreases |more|
  {
    if more == [] {
      assert rs + more == rs;
    } else {
      var front, last := more[..|more| - 1], more[|more| - 1];
      TotalsSplit(rs, front);
      LastBehind(rs, more);
      Totals(rs + front, last);
    }
  }

  lemma LastBehind(rs: seq<Grade>, more: seq<Grade>)
    requires more != []
    ensures rs + more == (rs + more[..|more| - 1]) + [more[|more| - 1]]
  {
  }

  /** The pass rate never exceeds the mean score, both lie in the unit interval, and for a run with cases
      one of them is one exactly when the other is. */
  lemma ScoreAlgebra(rs: seq<Grade>)
    requires forall g :: g in rs ==> Coherent(g)
    ensures 0.0 <= PassRate(rs) <= MeanScore(rs) <= 1.0
    ensures rs != [] ==> (PassRate(rs) == 1.0 <==> MeanScore(rs) == 1.0)
  {
    SumsCompare(rs);
    if rs != [] {
      var n, p, s := |rs| as real, CountPassed(rs) as real, SumScores(rs);
      Quotient(p, n);
      Quotient(s, n);
      Smaller(p, s, n);
    }
  }

  lemma Smaller(x: real, y: real, n: real)
    requires x <= y && n > 0.0
    ensures x / n <= y / n
  {
    var d := (y - x) / n;
    assert d >= 0.0 && y / n == x / n + d;
  }
}
