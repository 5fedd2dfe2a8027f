// The dry-run policy filter and the compilation of a chosen option.
module PolicyFilter {
  import opened Models

  /** `Unknown` is the lookup failure on a response that names no generated option. */
  datatype FilterResult = Survivors(kept: seq<Candidate>) | AllBlocked | Unknown

  /** `option_map[id]`: the last option with that id. */
  function Lookup(options: seq<PlanOption>, id: Uuid): (o: Option<PlanOption>)
    ensures o.Some? ==> o.value in options && o.value.id == id
    ensures o.None? <==> forall i :: 0 <= i < |options| ==> options[i].id != id
  {
    if options == [] then None
    else
      var n := |options| - 1;
      if options[n].id == id then Some(options[n]) else Lookup(options[..n], id)
  }

  function Effective(o: PlanOption, r: DryRun): PlanOption {
    if r.verdict == Modify && r.modified.Some? then o.(spec := r.modified.value) else o
  }

  /** The candidates the responses leave, in response order. */
  function Surviving(options: seq<PlanOption>, responses: seq<DryRun>): seq<Candidate>
    requires forall r :: r in responses ==> Lookup(options, r.optionId).Some?
  {
    if responses == [] then []
    else
      var n := |responses| - 1;
      var r := responses[n];
      Surviving(options, responses[..n])
        + (if r.verdict == Block then [] else [(Effective(Lookup(options, r.optionId).value, r), r)])
  }

  predicate AllKnown(options: seq<PlanOption>, responses: seq<DryRun>) {
    forall r :: r in responses ==> Lookup(options, r.optionId).Some?
  }

  function Filtered(options: seq<PlanOption>, responses: seq<DryRun>): FilterResult {
    if !AllKnown(options, responses) then Unknown
    else if Surviving(options, responses) == [] then AllBlocked
    else Survivors(Surviving(options, responses))
  }

  method Filter(options: seq<PlanOption>, responses: seq<DryRun>) returns (result: FilterResult)
    ensures result == Filtered(options, responses)
  {
    var surviving: seq<Candidate> := [];
    for i := 0 to |responses|
      invariant AllKnown(options, responses[..i])
      invariant surviving == Surviving(options, responses[..i])
    {
      var r := responses[i];
      assert responses[..i + 1] == responses[..i] + [r];
      assert responses[..i + 1][..i] == responses[..i];
      var o := Lookup(options, r.optionId);
      if o.None? {
        return Unknown;
      }
      if r.verdict == Block {
        continue;
      }
      surviving := surviving + [(Effective(o.value, r), r)];
    }
    assert responses[..|responses|] == responses;
    if surviving == [] {
      return AllBlocked;
    }
    return Survivors(surviving);
  }

  /** `o` after the response `r`: the spec of a modifying response replaces the option's, all else stays. */
  predicate After(c: PlanOption, o: PlanOption, r: DryRun) {
    && c.(spec := o.spec) == o
    && (r.verdict == Modify && r.modified.Some? ==> c.spec == r.modified.value)
    && (r.verdict != Modify || r.modified.None? ==> c.spec == o.spec)
  }

  /** Every candidate stems from a response that does not block and from the option it names. */
  ghost predicate StemsFrom(c: Candidate, options: seq<PlanOption>, responses: seq<DryRun>) {
    && c.1 in responses && c.1.verdict != Block
    && c.0.id == c.1.optionId
    && exists o :: o in options && After(c.0, o, c.1)
  }

  lemma {:induction false} SurvivorsStem(options: seq<PlanOption>, responses: seq<DryRun>)
    requires AllKnown(options, responses)
    ensures forall c :: c in Surviving(options, responses) ==> StemsFrom(c, options, responses)
    ensures |Surviving(options, responses)| <= |responses|
    decreases |responses|
  {
    if responses != [] {
      var n := |responses| - 1;
      SurvivorsStem(options, responses[..n]);
      forall c | c in Surviving(options, responses) ensures StemsFrom(c, options, responses) {
        if c in Surviving(options, responses[..n]) {
          assert StemsFrom(c, options, responses[..n]);
        } else {
          assert responses[n] in responses;
          var o := Lookup(options, responses[n].optionId).value;
          assert After(c.0, o, c.1) && o in options;
        }
      }
    }
  }

  function BlockCount(responses: seq<DryRun>): nat {
    if responses == [] then 0
    else
      var n := |responses| - 1;
      BlockCount(responses[..n]) + (if responses[n].verdict == Block then 1 else 0)
  }

  /** Every response either blocks or leaves one candidate. */
  lemma {:induction false} SurvivorsCounted(options: seq<PlanOption>, responses: seq<DryRun>)
    requires AllKnown(options, responses)
    ensures |Surviving(options, responses)| + BlockCount(responses) == |responses|
    decreases |responses|
  {
    if responses != [] {
      SurvivorsCounted(options, responses[..|responses| - 1]);
    }
  }

  /** The answers the candidates carry, and the answers that do not block. */
  function Answers(cs: seq<Candidate>): seq<DryRun> {
    if cs == [] then [] else Answers(cs[..|cs| - 1]) + [cs[|cs| - 1].1]
  }

  function Unblocked(responses: seq<DryRun>): seq<DryRun> {
    if responses == [] then []
    else
      var n := |responses| - 1;
      Unblocked(responses[..n]) + (if responses[n].verdict == Block then [] else [responses[n]])
  }

  lemma AnswersSnoc(cs: seq<Candidate>, c: Candidate)
    ensures Answers(cs + [c]) == Answers(cs) + [c.1]
  {
    assert (cs + [c])[..|cs|] == cs;
  }

  /** The candidates come in the order of the responses, one for each that does not block. */
  lemma {:induction false} SurvivorsInOrder(options: seq<PlanOption>, responses: seq<DryRun>)
    requires AllKnown(options, responses)
    ensures Answers(Surviving(options, responses)) == Unblocked(responses)
    decreases |responses|
  {
    if responses != [] {
      var n := |responses| - 1;
      var r, before := responses[n], Surviving(options, responses[..n]);
      SurvivorsInOrder(options, responses[..n]);
      if r.verdict == Block {
        assert Surviving(options, responses) == before;
      } else {
        AnswersSnoc(before, (Effective(Lookup(options, r.optionId).value, r), r));
      }
    }
  }

  lemma {:induction false} LookupIsLast(options: seq<PlanOption>, i: nat)
    requires i < |options| && forall j :: i < j < |options| ==> options[j].id != options[i].id
    ensures Lookup(options, options[i].id) == Some(options[i])
    decreases |options|
  {
    if i < |options| - 1 {
      LookupIsLast(options[..|options| - 1], i);
    }
  }

  /** Of several options with one id the last is the one a candidate is made of. */
  lemma {:induction false} SurvivorsNameTheLast(options: seq<PlanOption>, responses: seq<DryRun>, c: Candidate, i: nat)
    requires AllKnown(options, responses) && c in Surviving(options, responses)
    requires i < |options| && options[i].id == c.1.optionId
    requires forall j :: i < j < |options| ==> options[j].id != options[i].id
    ensures After(c.0, options[i], c.1)
    decreases |responses|
  {
    var n := |responses| - 1;
    if c in Surviving(options, responses[..n]) {
      SurvivorsNameTheLast(options, responses[..n], c, i);
    } else {
      LookupIsLast(options, i);
    }
  }

  /** Nothing that was not blocked is lost. */
  lemma {:induction false} UnblockedSurvive(options: seq<PlanOption>, responses: seq<DryRun>, i: nat)
    requires AllKnown(options, responses) && i < |responses| && responses[i].verdict != Block
    ensures exists c :: c in Surviving(options, responses) && c.1 == responses[i]
    decreases |responses|
  {
    var n := |responses| - 1;
    var r, before := responses[n], Surviving(options, responses[..n]);
    if i < n {
      UnblockedSurvive(options, responses[..n], i);
      var c :| c in before && c.1 == responses[i];
      assert before <= Surviving(options, responses);
    } else {
      var c := (Effective(Lookup(options, r.optionId).value, r), r);
      assert Surviving(options, responses) == before + [c];
      assert (before + [c])[|before|] == c;
    }
  }

  /** The filter gives up exactly when every response blocks; no options means no responses. */
  lemma AllBlockedExactly(options: seq<PlanOption>, responses: seq<DryRun>)
    requires AllKnown(options, responses)
    ensures Filtered(options, responses).AllBlocked? <==> forall r :: r in responses ==> r.verdict == Block
  {
    SurvivorsStem(options, responses);
    if r :| r in responses && r.verdict != Block {
      var i :| 0 <= i < |responses| && responses[i] == r;
      UnblockedSurvive(options, responses, i);
    }
    if Surviving(options, responses) != [] {
      assert StemsFrom(Surviving(options, responses)[0], options, responses);
    }
  }

  /** The responses answer the options one to one. */
  ghost predicate Echoed(options: seq<PlanOption>, responses: seq<DryRun>) {
    && |responses| == |options|
    && (forall i :: 0 <= i < |options| ==> responses[i].optionId == options[i].id)
    && (forall i, j :: 0 <= i < j < |options| ==> options[i].id != options[j].id)
  }

  ghost predicate DistinctIds(cs: seq<Candidate>) {
    forall i, j :: 0 <= i < j < |cs| ==> cs[i].0.id != cs[j].0.id
  }

  /** With one answer per option the candidates' ids are distinct. */
  lemma {:induction false} EchoedSurvivorsDistinct(options: seq<PlanOption>, responses: seq<DryRun>, n: nat)
    requires Echoed(options, responses) && n <= |responses| && AllKnown(options, responses[..n])
    ensures DistinctIds(Surviving(options, responses[..n]))
    decreases n
  {
    if n > 0 {
      var m := n - 1;
      assert responses[..n][..m] == responses[..m];
      EchoedSurvivorsDistinct(options, responses, m);
      NoEarlierCandidate(options, responses, m);
      var before := Surviving(options, responses[..m]);
      assert forall i :: 0 <= i < |before| ==> before[i] in before;
    }
  }

  lemma NoEarlierCandidate(options: seq<PlanOption>, responses: seq<DryRun>, m: nat)
    requires Echoed(options, responses) && m < |responses| && AllKnown(options, responses[..m])
    ensures forall c :: c in Surviving(options, responses[..m]) ==> c.0.id != responses[m].optionId
  {
    SurvivorsStem(options, responses[..m]);
    forall c | c in Surviving(options, responses[..m]) ensures c.0.id != responses[m].optionId {
      AnswersAnotherOption(options, responses, m, c);
    }
  }

  lemma AnswersAnotherOption(options: seq<PlanOption>, responses: seq<DryRun>, m: nat, c: Candidate)
    requires Echoed(options, responses) && m < |responses| && StemsFrom(c, options, responses[..m])
    ensures c.0.id != responses[m].optionId
  {
    var k :| 0 <= k < m && responses[..m][k] == c.1;
    assert responses[k] == c.1 && options[k].id != options[m].id;
  }
}

module PlanCompiler {
  import opened Models
  import Text

  datatype Node = Node(actionType: string, target: string, params: map<string, string>)

  function UpperChar(c: char): char {
    if 'a' <= c <= 'z' then (c as int - 32) as char else c
  }

  /** `s.upper()` on ASCII letters. */
  function Upper(s: string): (r: string)
    ensures |r| == |s| && forall i :: 0 <= i < |s| ==> r[i] == UpperChar(s[i])
  {
    seq(|s|, i requires 0 <= i < |s| => UpperChar(s[i]))
  }

  /** Upper-casing changes nothing but the case and leaves no small letter. */
  lemma UpperOnlyChangesCase(s: string)
    ensures Text.Lower(Upper(s)) == Text.Lower(s)
    ensures forall c :: c in Upper(s) ==> !('a' <= c <= 'z')
  {
    forall i | 0 <= i < |s| ensures Text.LowerChar(UpperChar(s[i])) == Text.LowerChar(s[i]) {
    }
  }

  /** `t` is `s` letter by letter, except that small letters became capitals. */
  predicate SameButUpper(t: string, s: string) {
    |t| == |s| && forall i :: 0 <= i < |s| ==>
      if 'a' <= s[i] <= 'z' then t[i] as int == s[i] as int - 32 else t[i] == s[i]
  }

  /** The nodes of the compiled plan, or nothing when the spec lacks its type or target.
      The guard on absent parameters cannot fire on a well-typed spec. */
  function Compile(o: PlanOption): (nodes: Option<seq<Node>>)
    ensures nodes.None? <==> o.spec.kind == "" || o.spec.target == ""
    ensures nodes.Some? ==> |nodes.value| == 1
    ensures nodes.Some? ==> nodes.value[0].target == o.spec.target && nodes.value[0].params == o.spec.params
    ensures nodes.Some? ==> SameButUpper(nodes.value[0].actionType, o.spec.kind)
  {
    if o.spec.kind == "" || o.spec.target == "" then None
    else Some([Node(Upper(o.spec.kind), o.spec.target, o.spec.params)])
  }
}
